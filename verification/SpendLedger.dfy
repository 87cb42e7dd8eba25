/**
 * The local spend ledger. Money is whole micro-dollars; prices are given in
 * hundredths of a dollar per million tokens, so a token's price is a whole
 * number of hundredths of a micro-dollar.
 */
module SpendLedger {
  import opened Wrappers
  import opened Json

  // ---- Pricing --------------------------------------------------------------------

  datatype Price = Price(prefix: string, input: nat, output: nat)

  const PRICES: seq<Price> := [
    Price("gpt-5-nano", 5, 40), Price("gpt-5-mini", 25, 200), Price("gpt-5", 125, 1000),
    Price("gpt-4.1-nano", 10, 40), Price("gpt-4.1-mini", 40, 160), Price("gpt-4.1", 200, 800),
    Price("gpt-4o-mini", 15, 60), Price("gpt-4o", 250, 1000), Price("o4-mini", 110, 440), Price("o3", 200, 800)]

  /**
   * A count as the runner reports it: nothing (or something empty), a whole
   * number, another value that converts to one, or one that does not.
   */
  datatype Count = NoCount | Whole(n: int) | Convertible(n: int) | Unreadable

  datatype Turn = Turn(requests: Count, inputTokens: Count, outputTokens: Count)

  predicate Applies(p: Price, model: string) { p.prefix <= model }

  /** The first row whose non-empty prefix of `model` is longest. */
  function BestPrice(table: seq<Price>, model: string): Option<Price> {
    if table == [] then None
    else
      var best, last := BestPrice(table[..|table| - 1], model), table[|table| - 1];
      var length := if best.Some? then |best.value.prefix| else 0;
      if Applies(last, model) && |last.prefix| > length then Some(last) else best
  }

  /** A row of the table that applies, none applying being longer; or none applies at all. */
  predicate IsBest(table: seq<Price>, model: string, best: Option<Price>) {
    if best.None? then forall p :: p in table && p.prefix != "" ==> !Applies(p, model)
    else
      && best.value in table && best.value.prefix != "" && Applies(best.value, model)
      && forall p :: p in table && Applies(p, model) ==> |p.prefix| <= |best.value.prefix|
  }

  lemma {:induction false} BestPriceIsBest(table: seq<Price>, model: string)
    ensures IsBest(table, model, BestPrice(table, model))
  {
    if table != [] {
      var n := |table| - 1;
      BestPriceIsBest(table[..n], model);
      assert table == table[..n] + [table[n]];
    }
  }

  predicate DistinctPrefixes(table: seq<Price>) {
    forall i, j :: 0 <= i < |table| && 0 <= j < |table| && table[i].prefix == table[j].prefix ==> i == j
  }

  /** The loop over the table; `BestPriceIsBest` says which row it finds. */
  method FindPrice(table: seq<Price>, model: string) returns (best: Option<Price>)
    ensures best == BestPrice(table, model) && IsBest(table, model, best)
  {
    best := None;
    for i := 0 to |table|
      invariant best == BestPrice(table[..i], model)
    {
      var length := if best.Some? then |best.value.prefix| else 0;
      if Applies(table[i], model) && |table[i].prefix| > length {
        best := Some(table[i]);
      }
      assert table[..i + 1][..i] == table[..i];
    }
    assert table[..|table|] == table;
    BestPriceIsBest(table, model);
  }

  /** The same rows in another order price every model alike. */
  lemma TableOrderIsIrrelevant(a: seq<Price>, b: seq<Price>, model: string)
    requires multiset(a) == multiset(b) && DistinctPrefixes(a)
    ensures BestPrice(a, model) == BestPrice(b, model)
  {
    BestPriceIsBest(a, model);
    BestPriceIsBest(b, model);
    var x, y := BestPrice(a, model), BestPrice(b, model);
    forall p ensures p in a <==> p in b {
      assert p in a <==> p in multiset(a);
      assert p in b <==> p in multiset(b);
    }
    if x.Some? && y.Some? {
      var i :| 0 <= i < |a| && a[i] == x.value;
      var j :| 0 <= j < |a| && a[j] == y.value;
      assert x.value.prefix == model[..|x.value.prefix|] == y.value.prefix;
    }
  }

  /** Round a count of hundredths to the nearest whole, ties to even. */
  function RoundHundredths(h: int): (r: int)
    ensures -50 <= h - 100 * r <= 50
  {
    var q, rest := h / 100, h % 100;
    if rest < 50 || (rest == 50 && q % 2 == 0) then q else q + 1
  }

  /** The exact cost of a turn in hundredths of a micro-dollar. */
  function ExactCost(p: Price, input: int, output: int): int { input * p.input + output * p.output }

  /** No price without a known model and two whole counts. */
  function CostOf(turn: Turn, model: string): Option<int> {
    var best := BestPrice(PRICES, model);
    if turn.inputTokens.Whole? && turn.outputTokens.Whole? && best.Some?
    then Some(RoundHundredths(ExactCost(best.value, turn.inputTokens.n, turn.outputTokens.n))) else None
  }

  /** One turn's estimate; `BestPriceIsBest` and `SpendIsNearlyExact` say what the figure is worth. */
  method EstimateCost(turn: Turn, model: string) returns (cost: Option<int>)
    ensures cost == CostOf(turn, model)
  {
    if !turn.inputTokens.Whole? || !turn.outputTokens.Whole? {
      return None;
    }
    var best := FindPrice(PRICES, model);
    if best.None? {
      return None;
    }
    cost := Some(RoundHundredths(ExactCost(best.value, turn.inputTokens.n, turn.outputTokens.n)));
  }

  // ---- Buckets ----------------------------------------------------------------------

  datatype Bucket = Bucket(requests: int, input: int, output: int, spend: int, unpriced: int)

  const BLANK := Bucket(0, 0, 0, 0, 0)

  function Plus(a: Bucket, b: Bucket): Bucket {
    Bucket(a.requests + b.requests, a.input + b.input, a.output + b.output, a.spend + b.spend, a.unpriced + b.unpriced)
  }

  predicate AtMost(a: Bucket, b: Bucket) {
    a.requests <= b.requests && a.input <= b.input && a.output <= b.output && a.spend <= b.spend && a.unpriced <= b.unpriced
  }

  ghost function Sum<K(!new)>(m: map<K, Bucket>): Bucket {
    if m.Keys == {} then BLANK
    else
      var k :| k in m;
      Plus(m[k], Sum(m - {k}))
  }

  lemma {:induction false} SumSplits<K(!new)>(m: map<K, Bucket>, k: K)
    requires k in m
    ensures Sum(m) == Plus(m[k], Sum(m - {k}))
    decreases |m|
  {
    var j :| j in m && Sum(m) == Plus(m[j], Sum(m - {j}));
    if j != k {
      var mj, mk := m - {j}, m - {k};
      assert mj[k] == m[k] && mk[j] == m[j];
      SumSplits(mj, k);
      SumSplits(mk, j);
      assert mj - {k} == mk - {j};
      assert Sum(mj) == Plus(m[k], Sum(mj - {k})) && Sum(mk) == Plus(m[j], Sum(mj - {k}));
      assert Sum(m) == Plus(m[j], Sum(mj));
    }
  }

  lemma EmptySum<K(!new)>(m: map<K, Bucket>)
    requires m.Keys == {}
    ensures Sum(m) == BLANK
  {
  }

  /** What a bucket holds, blank when there is none. */
  function At<K>(m: map<K, Bucket>, k: K): Bucket { if k in m then m[k] else BLANK }

  lemma SumGrows<K(!new)>(m: map<K, Bucket>, k: K, more: Bucket)
    ensures Sum(m[k := Plus(At(m, k), more)]) == Plus(Sum(m), more)
  {
    var bigger := m[k := Plus(At(m, k), more)];
    SumSplits(bigger, k);
    assert bigger - {k} == m - {k};
    if k in m {
      SumSplits(m, k);
    } else {
      assert m - {k} == m;
    }
  }

  /** Conversion with a default for nothing and for zero; None when it raises. */
  function AsInt(c: Count, default: int): Option<int> {
    match c
    case NoCount => Some(default)
    case Whole(n) => Some(if n == 0 then default else n)
    case Convertible(n) => Some(n)
    case Unreadable => None
  }

  /** One turn as an increment, or None when a count cannot be converted and recording gives up. */
  function Increment(turn: Turn, cost: Option<int>): Option<Bucket> {
    var r, i, o := AsInt(turn.requests, 1), AsInt(turn.inputTokens, 0), AsInt(turn.outputTokens, 0);
    if r.None? || i.None? || o.None? then None
    else Some(Bucket(r.value, i.value, o.value, if cost.Some? then cost.value else 0, if cost.Some? then 0 else 1))
  }

  // ---- The ledger file ------------------------------------------------------------------

  /** A key of `days`: a calendar day by number, or text that is not a date. */
  datatype DayKey = Day(n: int) | NotADate(text: string)

  datatype Ledger = Ledger(days: map<DayKey, Bucket>, total: Bucket, agents: map<string, Bucket>)

  const NEW_LEDGER := Ledger(map[], BLANK, map[])

  /** One call to record a turn; `written` says whether the file could be replaced. */
  datatype Recording = Recording(turn: Turn, model: string, agent: string, day: int, written: bool)

  function IncrementOf(r: Recording): Option<Bucket> { Increment(r.turn, CostOf(r.turn, r.model)) }

  function Updated(l: Ledger, r: Recording, more: Bucket): Ledger {
    Ledger(l.days[Day(r.day) := Plus(At(l.days, Day(r.day)), more)], Plus(l.total, more),
           if r.agent == "" then l.agents else l.agents[r.agent := Plus(At(l.agents, r.agent), more)])
  }

  /** The file after a recording: replaced as a whole, or not at all. */
  function AfterRecord(file: Option<Ledger>, r: Recording): Option<Ledger> {
    if IncrementOf(r).Some? && r.written then Some(Updated(file.GetOr(NEW_LEDGER), r, IncrementOf(r).value)) else file
  }

  function Run(recordings: seq<Recording>): Option<Ledger> {
    if recordings == [] then None else AfterRecord(Run(recordings[..|recordings| - 1]), recordings[|recordings| - 1])
  }

  predicate NonNegative(r: Recording) {
    && (r.turn.requests.Whole? || r.turn.requests.Convertible? ==> r.turn.requests.n >= 0)
    && (r.turn.inputTokens.Whole? || r.turn.inputTokens.Convertible? ==> r.turn.inputTokens.n >= 0)
    && (r.turn.outputTokens.Whole? || r.turn.outputTokens.Convertible? ==> r.turn.outputTokens.n >= 0)
  }

  lemma NonNegativeIncrement(r: Recording)
    requires NonNegative(r) && IncrementOf(r).Some?
    ensures AtMost(BLANK, IncrementOf(r).value)
  {
    if CostOf(r.turn, r.model).Some? {
      var best := BestPrice(PRICES, r.model).value;
      NonNegativeProduct(r.turn.inputTokens.n, best.input);
      NonNegativeProduct(r.turn.outputTokens.n, best.output);
    }
  }

  lemma NonNegativeProduct(a: int, b: nat)
    requires a >= 0
    ensures a * b >= 0
  {
  }

  /** After any sequence of recordings the running total is, field by field, the sum of the day buckets. */
  lemma {:induction false} TotalIsSumOfDays(recordings: seq<Recording>)
    ensures var l := Run(recordings).GetOr(NEW_LEDGER); l.total == Sum(l.days)
  {
    if recordings != [] {
      var n := |recordings| - 1;
      var before, r := Run(recordings[..n]), recordings[n];
      TotalIsSumOfDays(recordings[..n]);
      if IncrementOf(r).Some? {
        SumGrows(before.GetOr(NEW_LEDGER).days, Day(r.day), IncrementOf(r).value);
      }
    }
  }

  /** The turns that name no agent, as they were accepted. */
  function Unattributed(recordings: seq<Recording>): Bucket {
    if recordings == [] then BLANK
    else
      var n := |recordings| - 1;
      var r := recordings[n];
      var before := Unattributed(recordings[..n]);
      if r.agent == "" && r.written && IncrementOf(r).Some? then Plus(before, IncrementOf(r).value) else before
  }

  lemma UpdateSums(l: Ledger, r: Recording, more: Bucket)
    ensures var after := Updated(l, r, more);
            && after.total == Plus(l.total, more)
            && Sum(after.agents) == (if r.agent == "" then Sum(l.agents) else Plus(Sum(l.agents), more))
  {
    SumGrows(l.agents, r.agent, more);
  }

  /** What the agents account for and what nobody accounts for add up to the total. */
  lemma {:induction false} AgentsAndTheRestMakeTheTotal(recordings: seq<Recording>)
    ensures var l := Run(recordings).GetOr(NEW_LEDGER); l.total == Plus(Sum(l.agents), Unattributed(recordings))
  {
    hide IncrementOf, Updated, Sum;
    EmptySum(NEW_LEDGER.agents);
    if recordings != [] {
      var n := |recordings| - 1;
      AgentsAndTheRestMakeTheTotal(recordings[..n]);
      if IncrementOf(recordings[n]).Some? {
        UpdateSums(Run(recordings[..n]).GetOr(NEW_LEDGER), recordings[n], IncrementOf(recordings[n]).value);
      }
    }
  }

  lemma {:induction false} UnattributedIsNonNegative(recordings: seq<Recording>)
    requires forall r :: r in recordings ==> NonNegative(r)
    ensures AtMost(BLANK, Unattributed(recordings))
  {
    if recordings != [] {
      var n := |recordings| - 1;
      UnattributedIsNonNegative(recordings[..n]);
      assert recordings[n] in recordings;
      if IncrementOf(recordings[n]).Some? { NonNegativeIncrement(recordings[n]); }
    }
  }

  /** With non-negative counts the agents together never exceed the total, in any field. */
  lemma AgentsNeverExceedTotal(recordings: seq<Recording>)
    requires forall r :: r in recordings ==> NonNegative(r)
    ensures var l := Run(recordings).GetOr(NEW_LEDGER); AtMost(Sum(l.agents), l.total)
  {
    AgentsAndTheRestMakeTheTotal(recordings);
    UnattributedIsNonNegative(recordings);
  }

  /** Exact cost, in hundredths of a micro-dollar, of what was recorded with a price; and how many turns that is. */
  function Exact(recordings: seq<Recording>): (int, nat) {
    if recordings == [] then (0, 0)
    else
      var n := |recordings| - 1;
      var r := recordings[n];
      var (sum, turns) := Exact(recordings[..n]);
      if r.written && IncrementOf(r).Some? && CostOf(r.turn, r.model).Some? then
        (sum + ExactCost(BestPrice(PRICES, r.model).value, r.turn.inputTokens.n, r.turn.outputTokens.n), turns + 1)
      else (sum, turns)
  }

  /** Rounding turn by turn strays from the exact cost by at most half a micro-dollar a priced turn. */
  lemma {:induction false} SpendIsNearlyExact(recordings: seq<Recording>)
    ensures var (sum, turns) := Exact(recordings);
            -50 * turns <= sum - 100 * Run(recordings).GetOr(NEW_LEDGER).total.spend <= 50 * turns
  {
    if recordings != [] {
      SpendIsNearlyExact(recordings[..|recordings| - 1]);
    }
  }

  // ---- Reading the ledger -----------------------------------------------------------------

  datatype Summary = Summary(today: int, week: int, total: int, daysTracked: nat, recorded: bool)

  /** The dated buckets between two days, both included. */
  function Between(days: map<DayKey, Bucket>, first: int, last: int): map<DayKey, Bucket> {
    map k | k in days && k.Day? && first <= k.n <= last :: days[k]
  }

  function Dated(days: map<DayKey, Bucket>): map<DayKey, Bucket> {
    map k | k in days && k.Day? :: days[k]
  }

  lemma {:induction false} SumOfPart(m: map<DayKey, Bucket>, part: map<DayKey, Bucket>)
    requires forall k :: k in m ==> m[k].spend >= 0
    requires forall k :: k in part ==> k in m && part[k] == m[k]
    ensures 0 <= Sum(part).spend <= Sum(m).spend
    decreases |m|
  {
    if m.Keys == {} {
      assert part.Keys == {};
    } else {
      var k :| k in m;
      SumSplits(m, k);
      if k in part {
        SumSplits(part, k);
        SumOfPart(m - {k}, part - {k});
      } else {
        SumOfPart(m - {k}, part);
      }
    }
  }

  lemma SumOfOneMore(visited: map<DayKey, Bucket>, bigger: map<DayKey, Bucket>, k: DayKey, b: Bucket)
    requires k !in visited && bigger == visited[k := b]
    ensures Sum(bigger).spend == Sum(visited).spend + b.spend
  {
    SumSplits(bigger, k);
    assert bigger - {k} == visited;
  }

  ghost function Spent(days: map<DayKey, Bucket>): int { Sum(days).spend }

  /** Today, the last seven days and everything, summed over the day buckets whose key is a date. */
  ghost function SummaryOf(file: Option<Ledger>, today: int): Summary
  {
    if file.None? then Summary(0, 0, 0, 0, false)
    else
      var days := file.value.days;
      Summary(Spent(Between(days, today, today)), Spent(Between(days, today - 6, today)), Spent(Dated(days)), |Dated(days)|, true)
  }

  function WithDay(r: Summary, n: int, spend: int, today: int): Summary {
    Summary(r.today + (if n == today then spend else 0), r.week + (if today - 6 <= n <= today then spend else 0),
            r.total + spend, r.daysTracked + 1, r.recorded)
  }

  ghost function SummaryOfDays(days: map<DayKey, Bucket>, today: int): Summary {
    SummaryOf(Some(Ledger(days, BLANK, map[])), today)
  }

  lemma OneMoreDay(seen: map<DayKey, Bucket>, k: DayKey, b: Bucket, today: int)
    requires k !in seen
    ensures SummaryOfDays(seen[k := b], today) ==
            if k.Day? then WithDay(SummaryOfDays(seen, today), k.n, b.spend, today) else SummaryOfDays(seen, today)
  {
    if k.Day? {
      AddDay(seen, k.n, b, today, today);
      AddDay(seen, k.n, b, today - 6, today);
      AddDated(seen, k.n, b);
    } else {
      var bigger := seen[k := b];
      assert Dated(bigger) == Dated(seen);
      assert Between(bigger, today, today) == Between(seen, today, today);
      assert Between(bigger, today - 6, today) == Between(seen, today - 6, today);
    }
  }

  lemma WholeFile(file: Option<Ledger>, today: int)
    ensures file.None? ==> SummaryOf(file, today) == Summary(0, 0, 0, 0, false)
    ensures file.Some? ==> SummaryOf(file, today) == SummaryOfDays(file.value.days, today)
  {
    hide Sum;
  }

  lemma NoDays(today: int)
    ensures SummaryOfDays(map[], today) == Summary(0, 0, 0, 0, true)
  {
    assert Dated(map[]) == map[] && Between(map[], today, today) == map[] && Between(map[], today - 6, today) == map[];
  }

  /** Reading the ledger: one pass over the days, skipping keys that are not dates; `SummaryAgreesWithLedger` compares it with what was recorded. */
  method ReadSpend(file: Option<Ledger>, today: int) returns (r: Summary)
    ensures r == SummaryOf(file, today)
  {
    hide SummaryOf, SummaryOfDays, Sum, Spent;
    WholeFile(file, today);
    r := Summary(0, 0, 0, 0, false);
    if file.None? { return; }
    var days := file.value.days;
    var todo := days.Keys;
    ghost var seen: map<DayKey, Bucket> := map[];
    r := r.(recorded := true);
    NoDays(today);
    while todo != {}
      invariant seen.Keys !! todo && seen.Keys + todo == days.Keys
      invariant forall k :: k in seen ==> seen[k] == days[k]
      invariant r == SummaryOfDays(seen, today)
      decreases todo
    {
      var k :| k in todo;
      todo := todo - {k};
      OneMoreDay(seen, k, days[k], today);
      seen := seen[k := days[k]];
      if k.NotADate? {
        continue;
      }
      var spend := days[k].spend;
      r := r.(daysTracked := r.daysTracked + 1, total := r.total + spend);
      if k.n == today { r := r.(today := r.today + spend); }
      if today - 6 <= k.n <= today { r := r.(week := r.week + spend); }
    }
    assert seen == days;
  }

  lemma AddDay(seen: map<DayKey, Bucket>, n: int, b: Bucket, first: int, last: int)
    requires Day(n) !in seen
    ensures Spent(Between(seen[Day(n) := b], first, last)) == Spent(Between(seen, first, last)) + (if first <= n <= last then b.spend else 0)
  {
    var bigger := Between(seen[Day(n) := b], first, last);
    if first <= n <= last {
      assert bigger == Between(seen, first, last)[Day(n) := b];
      SumOfOneMore(Between(seen, first, last), bigger, Day(n), b);
    } else {
      assert bigger == Between(seen, first, last);
    }
  }

  lemma AddDated(seen: map<DayKey, Bucket>, n: int, b: Bucket)
    requires Day(n) !in seen
    ensures Spent(Dated(seen[Day(n) := b])) == Spent(Dated(seen)) + b.spend
    ensures |Dated(seen[Day(n) := b])| == |Dated(seen)| + 1
  {
    var bigger := Dated(seen[Day(n) := b]);
    assert bigger == Dated(seen)[Day(n) := b];
    SumOfOneMore(Dated(seen), bigger, Day(n), b);
  }

  lemma {:induction false} DaysAreDated(recordings: seq<Recording>)
    requires forall r :: r in recordings ==> NonNegative(r)
    ensures var l := Run(recordings).GetOr(NEW_LEDGER); Dated(l.days) == l.days && (forall k :: k in l.days ==> l.days[k].spend >= 0)
  {
    hide IncrementOf;
    if recordings != [] {
      var n := |recordings| - 1;
      DaysAreDated(recordings[..n]);
      assert recordings[n] in recordings;
      if IncrementOf(recordings[n]).Some? { NonNegativeIncrement(recordings[n]); }
    }
  }

  /** What is read agrees with what was recorded: the total is the ledger's own, and today is within the week within the total. */
  lemma SummaryAgreesWithLedger(recordings: seq<Recording>, today: int)
    requires forall r :: r in recordings ==> NonNegative(r)
    ensures var file := Run(recordings);
            var r := SummaryOf(file, today);
            && (file.Some? ==> r.total == file.value.total.spend)
            && 0 <= r.today <= r.week <= r.total
  {
    var file := Run(recordings);
    if file.Some? {
      TotalIsSumOfDays(recordings);
      DaysAreDated(recordings);
      var days := file.value.days;
      SumOfPart(Between(days, today - 6, today), Between(days, today, today));
      SumOfPart(days, Between(days, today - 6, today));
    }
  }

  /** The ledger file as an object; recording replaces it, reading leaves it alone. */
  class LedgerFile {
    var file: Option<Ledger>

    constructor ()
      ensures file == None
    {
      file := None;
    }

    /** Add a turn to its bucket in place, field after field; false when a count cannot be converted. */
    method Accumulate(bucket: Bucket, turn: Turn, cost: Option<int>) returns (ok: bool, after: Bucket)
      ensures ok == Increment(turn, cost).Some?
      ensures ok ==> after == Plus(bucket, Increment(turn, cost).value)
    {
      after := bucket;
      var n := AsInt(turn.requests, 1);
      if n.None? { return false, after; }
      after := after.(requests := after.requests + n.value);
      n := AsInt(turn.inputTokens, 0);
      if n.None? { return false, after; }
      after := after.(input := after.input + n.value);
      n := AsInt(turn.outputTokens, 0);
      if n.None? { return false, after; }
      after := after.(output := after.output + n.value);
      if cost.None? {
        after := after.(unpriced := after.unpriced + 1);
      } else {
        after := after.(spend := after.spend + cost.value);
      }
      ok := true;
    }

    /** Record one turn; the day's bucket comes back even when the file could not be written. `TotalIsSumOfDays` is about runs of it. */
    method RecordUsage(r: Recording) returns (day: Option<Bucket>)
      modifies this
      ensures file == AfterRecord(old(file), r)
      ensures day.Some? == IncrementOf(r).Some?
      ensures day.Some? ==> day.value == Plus(At(old(file).GetOr(NEW_LEDGER).days, Day(r.day)), IncrementOf(r).value)
    {
      var cost := EstimateCost(r.turn, r.model);
      var ledger := file.GetOr(NEW_LEDGER);
      var ok, bucket := Accumulate(At(ledger.days, Day(r.day)), r.turn, cost);
      if !ok { return None; }
      var total;
      ok, total := Accumulate(ledger.total, r.turn, cost);
      var agents := ledger.agents;
      if r.agent != "" {
        var mine;
        ok, mine := Accumulate(At(ledger.agents, r.agent), r.turn, cost);
        agents := agents[r.agent := mine];
      }
      if r.written {
        file := Some(Ledger(ledger.days[Day(r.day) := bucket], total, agents));
      }
      day := Some(bucket);
    }
  }
}
