/**
 * Bounded fan-out over the configured usage targets: at most four workers, a
 * collection deadline, and a grace window in which late answers still count.
 */
module UsageCollect {
  import opened Wrappers
  import opened UsageSnapshot

  datatype RowError = NotObserved | WorkerFailed | DeadlinePassed | Unavailable | Listed(code: nat) | Unlisted

  /** `target` is the index of the target a row describes; no body means nothing was ever fetched. */
  datatype Row = Row(target: nat, body: Option<Snapshot>, error: Option<RowError>)

  /** What a worker sends: whether it is its last word, whether it names an account at all, and the row. */
  datatype Message = Message(final: bool, named: bool, row: Row)

  datatype Fetched = Fetched(raw: RawSnapshot, error: Option<RowError>)

  function Faded(w: Window): Window {
    if w.state == Known then w.(state := Stale) else w
  }

  /** Known turns stale, window by window. */
  function Fade(s: Snapshot): Snapshot {
    s.(usage := Stale, windows := seq(|s.windows|, i requires 0 <= i < |s.windows| => Faded(s.windows[i])))
  }

  function IsKnown(row: Row): bool { row.body.Some? && row.body.value.usage == Known }

  /** Merge an answer into the row before it; only a known snapshot replaces what was there. */
  function ResultRow(previous: Row, result: Fetched, now: Instant, cal: Calendar): (row: Row)
    ensures row.target == previous.target
    ensures IsKnown(row) ==> Safe(result.raw, now, cal).Some? && row.body == Safe(result.raw, now, cal)
    ensures !IsKnown(row) ==> row.error.Some?
    ensures !IsKnown(row) && previous.body.Some? ==>
              row.body == Some(if IsKnown(previous) then Fade(previous.body.value) else previous.body.value)
  {
    var safe := Safe(result.raw, now, cal);
    var error := if result.error == Some(Unlisted) then Some(Unavailable) else result.error;
    if safe.Some? && safe.value.usage == Known then Row(previous.target, safe, error)
    else
      var row := if safe.Some? && previous.body.None? then Row(previous.target, safe, error) else previous;
      var said := Some(error.GetOr(NotObserved));
      if IsKnown(row) then Row(row.target, Some(Fade(row.body.value)), said) else row.(error := said)
  }

  /** A fetch is due unless only reading, when asked for or when the cache holds nothing known. */
  predicate Due(cached: Option<Snapshot>, passive: bool, refresh: bool) {
    !passive && (refresh || cached.None? || cached.value.usage != Known)
  }

  /**
   * One worker: its cached row first, then a fetch when one is due, then a last
   * word. `fetch` is None when the fetcher raises.
   */
  method Worker(target: nat, cached: Option<Snapshot>, passive: bool, refresh: bool, expired: bool,
                fetch: Option<Fetched>, writerRaises: bool, now: Instant, cal: Calendar) returns (sent: seq<Message>)
    ensures forall m :: m in sent ==> m.named && m.row.target == target
    ensures 2 <= |sent| <= 3 && !sent[0].final && (forall k :: 1 <= k < |sent| ==> sent[k].final)
    ensures sent[0].row == Row(target, cached, if cached.None? then Some(NotObserved) else None)
    ensures !Due(cached, passive, refresh) ==> sent[1].row == sent[0].row && |sent| == 2
    ensures Due(cached, passive, refresh) && expired ==> sent[1].row == sent[0].row.(error := Some(DeadlinePassed))
    ensures Due(cached, passive, refresh) && !expired ==>
              sent[1].row == ResultRow(sent[0].row, fetch.GetOr(Fetched(NotADict, Some(WorkerFailed))), now, cal)
    ensures |sent| == 3 ==> writerRaises && IsKnown(sent[1].row) && !IsKnown(sent[2].row) && sent[2].row.error == Some(WorkerFailed)
  {
    var row := Row(target, cached, if cached.None? then Some(NotObserved) else None);
    sent := [Message(false, true, row)];
    var failed := Fetched(NotADict, Some(WorkerFailed));
    var needsFetch := Due(cached, passive, refresh);
    if needsFetch {
      if expired {
        row := row.(error := Some(DeadlinePassed));
      } else if fetch.None? {
        sent := sent + [Message(true, true, ResultRow(row, failed, now, cal))];
        return;
      } else {
        row := ResultRow(row, fetch.value, now, cal);
      }
    }
    sent := sent + [Message(true, true, row)];
    if needsFetch && IsKnown(row) && writerRaises {
      sent := sent + [Message(true, true, ResultRow(row, failed, now, cal))];
    }
  }

  // ---- The parent's surroundings ---------------------------------------------------

  type Handle = nat

  /** What the parent may run into: a worker that could not be started, a pipe at its end or broken, a worker that died. */
  datatype Incident = StartFailed(target: nat) | HungUp(target: nat) | FoundDead(target: nat)

  /** What one observation of the outside may turn out to be. */
  datatype Chance = Chance(elapsed: nat, yes: bool, message: Option<Message>)

  /** What comes out of a pipe is about the target of the worker that writes into it. */
  function Signed(m: Option<Message>, target: nat): Option<Message> {
    if m.Some? then Some(m.value.(row := m.value.row.(target := target))) else None
  }

  function At(plan: nat -> Chance, k: nat): Chance { plan(k) }

  /**
   * Clock, pipes and child processes. Every observation consumes one chance of
   * the plan, and time never runs backwards. `open` is the set of pipe ends the
   * parent holds: using or closing an end requires holding it, so no end can be
   * closed twice. `owner` says whose worker writes into a pipe, as was decided
   * when it was started. `live` counts the workers started and not yet seen off,
   * `busiest` is the most there ever were, `heard` is every message received and
   * `incidents` everything the parent ran into.
   */
  class Machine {
    var now: int
    var tick: nat
    var next: Handle
    var owner: map<Handle, nat>
    ghost var open: set<Handle>
    ghost var live: nat
    ghost var busiest: nat
    ghost var heard: seq<Message>
    ghost var incidents: seq<Incident>
    const plan: nat -> Chance

    constructor (plan: nat -> Chance, now: int)
      ensures this.plan == plan && this.now == now && tick == 0 && Valid()
      ensures open == {} && live == busiest == 0 && heard == [] && incidents == []
    {
      this.plan, this.now, tick, next, owner, open := plan, now, 0, 0, map[], {};
      live, busiest, heard, incidents := 0, 0, [], [];
    }

    ghost predicate Valid()
      reads this
    {
      forall h :: h in open ==> h < next
    }

    method Clock() returns (t: int)
      requires Valid()
      modifies this`now, this`tick
      ensures Valid() && t == now == old(now) + At(plan, old(tick)).elapsed && tick == old(tick) + 1
    {
      now, tick := now + At(plan, tick).elapsed, tick + 1;
      t := now;
    }

    method Sleep(ms: nat)
      requires Valid()
      modifies this`now, this`tick
      ensures Valid() && now == old(now) + ms + At(plan, old(tick)).elapsed && tick == old(tick) + 1
    {
      now, tick := now + ms + At(plan, tick).elapsed, tick + 1;
    }

    /** A fresh pipe: both of its ends are the parent's until closed. */
    method Pipe() returns (receive: Handle, send: Handle)
      requires Valid()
      modifies this`next, this`open
      ensures Valid() && receive != send && receive !in old(open) && send !in old(open)
      ensures open == old(open) + {receive, send}
    {
      receive, send := next, next + 1;
      next := next + 2;
      open := open + {receive, send};
    }

    method Close(h: Handle)
      requires Valid() && h in open
      modifies this`open
      ensures Valid() && open == old(open) - {h}
    {
      open := open - {h};
    }

    /** Start the worker for `target`, writing into the pipe read at `receive`; it may fail to start. */
    method Start(target: nat, receive: Handle) returns (begun: bool)
      requires Valid() && receive in open
      modifies this`now, this`tick, this`owner, this`live, this`busiest, this`incidents
      ensures begun == At(plan, old(tick)).yes && owner == old(owner)[receive := target]
      ensures Valid() && now == old(now) + At(plan, old(tick)).elapsed && tick == old(tick) + 1
      ensures incidents == old(incidents) + (if begun then [] else [StartFailed(target)])
      ensures live == old(live) + (if begun then 1 else 0)
      ensures busiest == if live > old(busiest) then live else old(busiest)
    {
      owner := owner[receive := target];
      begun := At(plan, tick).yes;
      now, tick := now + At(plan, tick).elapsed, tick + 1;
      if begun { live := live + 1; } else { incidents := incidents + [StartFailed(target)]; }
      if live > busiest { busiest := live; }
    }

    /** Is the worker heard on this pipe alive? */
    method Ask(h: Handle) returns (alive: bool)
      requires Valid() && h in open && h in owner
      modifies this`now, this`tick, this`incidents
      ensures alive == At(plan, old(tick)).yes
      ensures Valid() && now == old(now) + At(plan, old(tick)).elapsed && tick == old(tick) + 1
      ensures incidents == old(incidents) + (if alive then [] else [FoundDead(owner[h])])
    {
      alive := At(plan, tick).yes;
      if !alive { incidents := incidents + [FoundDead(owner[h])]; }
      now, tick := now + At(plan, tick).elapsed, tick + 1;
    }

    method Poll(h: Handle) returns (ready: bool)
      requires Valid() && h in open
      modifies this`now, this`tick
      ensures ready == At(plan, old(tick)).yes
      ensures Valid() && now == old(now) + At(plan, old(tick)).elapsed && tick == old(tick) + 1
    {
      ready := At(plan, tick).yes;
      now, tick := now + At(plan, tick).elapsed, tick + 1;
    }

    /**
     * The next message in this pipe, or None at end of file or on error. What is
     * in a pipe was sent by the worker started on it, and a worker's messages
     * are about its own target, as `Worker` ensures.
     */
    method Recv(h: Handle) returns (m: Option<Message>)
      requires Valid() && h in open && h in owner
      modifies this`now, this`tick, this`heard, this`incidents
      ensures m == Signed(At(plan, old(tick)).message, owner[h])
      ensures Valid() && now == old(now) + At(plan, old(tick)).elapsed && tick == old(tick) + 1
      ensures heard == old(heard) + (if m.Some? then [m.value] else [])
      ensures incidents == old(incidents) + (if m.Some? then [] else [HungUp(owner[h])])
    {
      m := Signed(At(plan, tick).message, owner[h]);
      if m.Some? { heard := heard + [m.value]; } else { incidents := incidents + [HungUp(owner[h])]; }
      now, tick := now + At(plan, tick).elapsed, tick + 1;
    }

    /** Join, and when that is not enough terminate and kill: time passes. */
    method Reap()
      requires Valid() && live > 0
      modifies this`now, this`tick, this`live
      ensures Valid() && old(now) <= now && live == old(live) - 1
    {
      now, tick, live := now + At(plan, tick).elapsed, tick + 1, live - 1;
    }
  }

  const MAX_WORKERS: nat := 4
  const GRACE_MS: nat := 8000

  // ---- What the parent's bookkeeping must satisfy -----------------------------------

  function Before(n: nat): (s: set<nat>)
    ensures forall i: nat :: i in s <==> i < n
  {
    if n == 0 then {} else Before(n - 1) + {n - 1}
  }

  /** Row i describes target i, and a target still waiting has the row it began with. */
  ghost predicate RowsOk(rows: seq<Row>, size: nat, started: nat) {
    && |rows| == size && started <= size
    && (forall i: nat :: i < size ==> rows[i].target == i)
    && (forall i: nat :: started <= i < size ==> rows[i] == Unobserved(i))
  }

  function Unobserved(i: nat): Row { Row(i, None, Some(NotObserved)) }

  /** Targets leave the queue in order. */
  ghost predicate QueueOk(pending: seq<nat>, size: nat, started: nat) {
    |pending| + started == size && (forall k :: 0 <= k < |pending| ==> pending[k] == started + k)
  }

  /** Every started target is either being worked on or done with. */
  ghost predicate Partitioned(started: nat, active: set<nat>, retired: set<nat>) {
    active !! retired && active + retired == Before(started)
  }

  /** The parent holds one pipe end a worker, all different, and none besides those it came with. */
  ghost predicate PipesOk(open: set<Handle>, outside: set<Handle>, active: map<nat, Handle>) {
    && (forall i, j {:trigger active[i], active[j]} :: i in active && j in active && i != j ==> active[i] != active[j])
    && outside !! active.Values
    && open == outside + active.Values
  }

  lemma StartOne(n: nat, active: set<nat>, retired: set<nat>)
    requires Partitioned(n, active, retired)
    ensures n !in active && n !in retired && n !in Before(n)
    ensures Partitioned(n + 1, active + {n}, retired) && Partitioned(n + 1, active, retired + {n})
    ensures Before(n) <= Before(n + 1)
  {
    assert n !in active + retired;
  }

  lemma EndOne(n: nat, active: set<nat>, retired: set<nat>, i: nat)
    requires Partitioned(n, active, retired) && i in active
    ensures Partitioned(n, active - {i}, retired + {i})
  {
    hide Before;
    assert (active - {i}) + (retired + {i}) == active + retired;
  }

  lemma OneKeyMore<V>(m: map<nat, V>, i: nat, v: V)
    requires i !in m
    ensures m[i := v].Keys == m.Keys + {i} && |m[i := v]| == |m| + 1
  {
    var more := m[i := v];
    assert more.Keys == m.Keys + {i};
    assert |more| == |more.Keys| && |m| == |m.Keys|;
  }

  lemma OneKeyLess(m: map<nat, Handle>, i: nat)
    requires i in m
    ensures (m - {i}).Keys == m.Keys - {i} && |m - {i}| == |m| - 1
  {
    var less := m - {i};
    assert less.Keys == m.Keys - {i};
    assert |less| == |less.Keys| && |m| == |m.Keys|;
  }

  lemma PipeAdded(open: set<Handle>, outside: set<Handle>, active: map<nat, Handle>, i: nat, h: Handle)
    requires PipesOk(open, outside, active) && i !in active && h !in open
    ensures PipesOk(open + {h}, outside, active[i := h])
  {
    assert active[i := h].Values == active.Values + {h} by {
      var bigger := active[i := h];
      forall v | v in active.Values ensures v in bigger.Values {
        var k :| k in active && active[k] == v;
        assert bigger[k] == v;
      }
      assert bigger[i] == h;
    }
  }

  lemma PipeHeld(open: set<Handle>, outside: set<Handle>, active: map<nat, Handle>, i: nat)
    requires PipesOk(open, outside, active) && i in active
    ensures active[i] in open
  {
    assert active[i] in active.Values;
  }

  lemma PipeRemoved(open: set<Handle>, outside: set<Handle>, active: map<nat, Handle>, i: nat)
    requires PipesOk(open, outside, active) && i in active
    ensures active[i] in open && PipesOk(open - {active[i]}, outside, active - {i})
  {
    var smaller := active - {i};
    assert smaller.Values == active.Values - {active[i]} by {
      forall v | v in active.Values - {active[i]} ensures v in smaller.Values {
        var k :| k in active && active[k] == v;
        assert smaller[k] == v;
      }
    }
    assert active[i] in active.Values;
  }

  /**
   * How the parent's work on a target ended: its worker could not be started,
   * was lost while collecting, said its last word in the grace window, was lost
   * in the grace window, or was still running at its end.
   */
  datatype End = NotStarted | Gone | SaidLast | BrokeLate | Stopped

  /**
   * The parent's bookkeeping: the rows, the queue, the workers with the pipe
   * end each is heard on, and whose last word has come. `started` and `ends`
   * only record what happened.
   */
  datatype Book = Book(rows: seq<Row>, pending: seq<nat>, active: map<nat, Handle>, completed: set<nat>,
                       started: nat, ends: map<nat, End>)

  function EndOf(b: Book, i: nat): Option<End> { if i in b.ends then Some(b.ends[i]) else None }

  ghost predicate BookOk(b: Book, size: nat) {
    && RowsOk(b.rows, size, b.started)
    && QueueOk(b.pending, size, b.started)
    && Partitioned(b.started, b.active.Keys, b.ends.Keys)
    && |b.active| <= MAX_WORKERS
    && b.completed <= Before(b.started)
  }

  function Opening(size: nat): Book {
    Book(seq(size, (i: nat) => Unobserved(i)), seq(size, (i: nat) => i), map[], {}, 0, map[])
  }

  /**
   * What an end does to the row of a target whose last word has not come. A
   * worker lost in the grace window leaves no mark at all; one that had to be
   * stopped leaves nothing known behind.
   */
  function Marked(row: Row, completed: bool, end: Option<End>): Row {
    if completed || end.None? then row
    else
      match end.value
      case NotStarted => row.(error := Some(WorkerFailed))
      case Gone => row.(error := Some(WorkerFailed))
      case Stopped => Row(row.target, if row.body.Some? then Some(Fade(row.body.value)) else None, Some(DeadlinePassed))
      case SaidLast => row
      case BrokeLate => row
  }

  /** The target is done with. */
  function AfterEnd(b: Book, i: nat, end: End): Book
    requires i < |b.rows|
  {
    b.(rows := b.rows[i := Marked(b.rows[i], i in b.completed, Some(end))], active := b.active - {i}, ends := b.ends[i := end])
  }

  function AfterLaunch(b: Book, h: Option<Handle>): Book
    requires b.pending != [] && b.pending[0] < |b.rows|
  {
    var i := b.pending[0];
    var popped := b.(pending := b.pending[1..], started := b.started + 1);
    if h.Some? then popped.(active := b.active[i := h.value]) else AfterEnd(popped, i, NotStarted)
  }

  /** Record what a worker sent. */
  function AfterAccept(b: Book, i: nat, m: Message): Book
    requires i < |b.rows|
  {
    var rows :=
      if m.named then b.rows[i := m.row]
      else if i !in b.completed then b.rows[i := b.rows[i].(error := Some(WorkerFailed))]
      else b.rows;
    b.(rows := rows, completed := if m.final then b.completed + {i} else b.completed)
  }

  /** Record what was left in a dead worker's pipe: a message that names no account leaves the row alone. */
  function AfterLastLook(b: Book, i: nat, m: Message): Book
    requires i < |b.rows|
  {
    AfterAccept(b, i, if m.named then m else Message(m.final, true, b.rows[i]))
  }

  /** One look at worker i while collecting, by what the chances from k on hold. */
  function Attended(b: Book, i: nat, plan: nat -> Chance, k: nat): Book
    requires i < |b.rows|
  {
    var waiting, alive, sent := At(plan, k).yes, At(plan, k + 1).yes, Signed(At(plan, k + 1).message, i);
    if waiting then if sent.Some? then AfterAccept(b, i, sent.value) else AfterEnd(b, i, Gone)
    else if alive then b
    else Buried(b, i, plan, k + 2)
  }

  /** One last look at the pipe of a worker found dead. */
  function Buried(b: Book, i: nat, plan: nat -> Chance, k: nat): Book
    requires i < |b.rows|
  {
    var left := Signed(At(plan, k + 1).message, i);
    AfterEnd(if At(plan, k).yes && left.Some? then AfterLastLook(b, i, left.value) else b, i, Gone)
  }

  /** One look at worker i in the grace window. */
  function AttendedLate(b: Book, i: nat, plan: nat -> Chance, k: nat): Book
    requires i < |b.rows|
  {
    var sent := Signed(At(plan, k + 1).message, i);
    if !At(plan, k).yes then b
    else if sent.None? then AfterEnd(b, i, BrokeLate)
    else if sent.value.final then AfterEnd(AfterAccept(b, i, sent.value), i, SaidLast)
    else AfterAccept(b, i, sent.value)
  }

  lemma ActiveIsStarted(b: Book, size: nat, i: nat)
    requires BookOk(b, size) && i in b.active
    ensures i < b.started <= size == |b.rows| && b.rows[i].target == i && i !in b.ends
  {
    assert i in Before(b.started);
  }

  lemma LaunchKeepsRows(b: Book, size: nat, h: Option<Handle>)
    requires RowsOk(b.rows, size, b.started) && QueueOk(b.pending, size, b.started) && b.pending != []
    ensures b.pending[0] == b.started < size
    ensures var c := AfterLaunch(b, h); RowsOk(c.rows, size, c.started) && QueueOk(c.pending, size, c.started)
  {
  }

  lemma LaunchTouchesOne(b: Book, h: Option<Handle>)
    requires b.pending != [] && b.pending[0] < |b.rows| && b.pending[0] !in b.active
    ensures var i, c := b.pending[0], AfterLaunch(b, h);
            && c.completed == b.completed && c.started == b.started + 1 && c.pending == b.pending[1..]
            && c.active == (if h.Some? then b.active[i := h.value] else b.active)
            && c.ends == (if h.Some? then b.ends else b.ends[i := NotStarted])
            && c.rows == (if h.Some? then b.rows else b.rows[i := Marked(b.rows[i], i in b.completed, Some(NotStarted))])
  {
    if h.None? { assert b.active - {b.pending[0]} == b.active; }
  }

  lemma LaunchKeepsPartition(b: Book, h: Option<Handle>)
    requires Partitioned(b.started, b.active.Keys, b.ends.Keys) && b.pending != [] && b.pending[0] == b.started < |b.rows|
    requires b.completed <= Before(b.started)
    ensures b.started !in b.active && b.started !in b.ends && b.started !in b.completed
    ensures var c := AfterLaunch(b, h);
            && Partitioned(c.started, c.active.Keys, c.ends.Keys) && |c.active| == |b.active| + (if h.Some? then 1 else 0)
            && c.active == (if h.Some? then b.active[b.started := h.value] else b.active)
            && c.completed <= Before(c.started)
  {
    hide AfterLaunch, Before, Marked, Partitioned;
    StartOne(b.started, b.active.Keys, b.ends.Keys);
    LaunchTouchesOne(b, h);
    if h.Some? { OneKeyMore(b.active, b.started, h.value); } else { OneKeyMore(b.ends, b.started, NotStarted); }
  }

  lemma QueueHead(b: Book, size: nat)
    requires BookOk(b, size) && b.pending != []
    ensures b.pending[0] == b.started < size == |b.rows|
  {
    hide Before, Partitioned;
  }

  lemma LaunchKeepsBook(b: Book, size: nat, h: Option<Handle>)
    requires BookOk(b, size) && b.pending != [] && |b.active| < MAX_WORKERS
    ensures b.pending[0] == b.started < size && b.started !in b.active && b.started !in b.ends && b.started !in b.completed
    ensures var c := AfterLaunch(b, h);
            && BookOk(c, size) && |c.active| == |b.active| + (if h.Some? then 1 else 0)
            && c.active == if h.Some? then b.active[b.started := h.value] else b.active
  {
    QueueHead(b, size);
    hide RowsOk, QueueOk, Before, AfterLaunch, Partitioned;
    LaunchKeepsRows(b, size, h);
    LaunchKeepsPartition(b, h);
  }

  lemma AcceptKeepsBook(b: Book, size: nat, i: nat, m: Message)
    requires BookOk(b, size) && i in b.active && m.row.target == i
    ensures i < |b.rows| && BookOk(AfterAccept(b, i, m), size)
  {
    ActiveIsStarted(b, size, i);
    var c := AfterAccept(b, i, m);
    assert RowsOk(c.rows, size, c.started);
  }

  lemma EndKeepsBook(b: Book, size: nat, i: nat, end: End)
    requires BookOk(b, size) && i in b.active
    ensures i < |b.rows|
    ensures var c := AfterEnd(b, i, end); BookOk(c, size) && |c.active| == |b.active| - 1
  {
    ActiveIsStarted(b, size, i);
    var c := AfterEnd(b, i, end);
    hide Before, Marked, QueueOk;
    assert RowsOk(c.rows, size, c.started) by { MarkedKeepsTarget(b.rows[i], i in b.completed, Some(end)); }
    hide RowsOk;
    EndKeepsPartition(b, i, end);
  }

  lemma EndTouchesOne(b: Book, i: nat, end: End)
    requires i < |b.rows|
    ensures AfterEnd(b, i, end).active == b.active - {i}
  {
  }

  lemma EndKeepsPartition(b: Book, i: nat, end: End)
    requires Partitioned(b.started, b.active.Keys, b.ends.Keys) && i in b.active && i < |b.rows|
    ensures var c := AfterEnd(b, i, end); Partitioned(c.started, c.active.Keys, c.ends.Keys) && |c.active| == |b.active| - 1
  {
    EndOne(b.started, b.active.Keys, b.ends.Keys, i);
    hide Before, Marked, Partitioned;
    OneKeyLess(b.active, i);
    OneKeyMore(b.ends, i, end);
  }

  lemma MarkedKeepsTarget(row: Row, completed: bool, end: Option<End>)
    ensures Marked(row, completed, end).target == row.target
  {
  }

  // ---- What has been heard ends up in the rows -------------------------------------------

  /** The row of the last message from `i` that named an account. */
  function Latest(heard: seq<Message>, i: nat): Option<Row> {
    if heard == [] then None
    else
      var m := heard[|heard| - 1];
      if m.named && m.row.target == i then Some(m.row) else Latest(heard[..|heard| - 1], i)
  }

  predicate LastWordHeard(heard: seq<Message>, i: nat) { exists m :: m in heard && m.row.target == i && m.final }

  predicate AlwaysNamed(heard: seq<Message>, i: nat) { forall m :: m in heard && m.row.target == i ==> m.named }

  /**
   * What a row carries is what its worker last sent, or nothing if it sent
   * nothing, and on top of that the mark its end leaves, provided the worker
   * named its account in every message, as workers do. For any other worker
   * that still fixes the body, and the error an end leaves.
   */
  ghost predicate RowTells(row: Row, i: nat, completed: bool, end: Option<End>, heard: seq<Message>) {
    var said := Latest(heard, i).GetOr(Unobserved(i));
    && (completed <==> LastWordHeard(heard, i))
    && row.body == Marked(said, completed, end).body
    && row.error == Marked(row, completed, end).error
    && (AlwaysNamed(heard, i) ==> row == Marked(said, completed, end))
  }

  ghost predicate Delivered(b: Book, heard: seq<Message>) {
    forall i: nat :: i < |b.rows| ==> RowTells(b.rows[i], i, i in b.completed, EndOf(b, i), heard)
  }

  lemma OneMoreMessage(heard: seq<Message>, m: Message, i: nat)
    ensures Latest(heard + [m], i) == if m.named && m.row.target == i then Some(m.row) else Latest(heard, i)
    ensures LastWordHeard(heard + [m], i) <==> LastWordHeard(heard, i) || (m.row.target == i && m.final)
    ensures AlwaysNamed(heard + [m], i) <==> AlwaysNamed(heard, i) && (m.row.target == i ==> m.named)
  {
    var all := heard + [m];
    assert all[..|all| - 1] == heard;
    assert forall x :: x in all <==> x in heard || x == m;
  }

  lemma AcceptIsDelivered(b: Book, heard: seq<Message>, i: nat, m: Message)
    requires Delivered(b, heard) && i < |b.rows| && i !in b.ends && m.row.target == i
    ensures Delivered(AfterAccept(b, i, m), heard + [m])
  {
    var c := AfterAccept(b, i, m);
    forall j: nat | j < |c.rows| ensures RowTells(c.rows[j], j, j in c.completed, EndOf(c, j), heard + [m]) {
      OneMoreMessage(heard, m, j);
      assert RowTells(b.rows[j], j, j in b.completed, EndOf(b, j), heard);
      hide Latest, LastWordHeard, AlwaysNamed;
    }
  }

  /** A message without an account, taken from a dead worker's pipe, only counts as its last word. */
  lemma LastLookIsDelivered(b: Book, heard: seq<Message>, i: nat, m: Message)
    requires Delivered(b, heard) && i < |b.rows| && i !in b.ends && m.row.target == i
    ensures Delivered(AfterLastLook(b, i, m), heard + [m])
  {
    if m.named {
      AcceptIsDelivered(b, heard, i, m);
    } else {
      var c := AfterLastLook(b, i, m);
      assert c.rows == b.rows;
      forall j: nat | j < |c.rows| ensures RowTells(c.rows[j], j, j in c.completed, EndOf(c, j), heard + [m]) {
        OneMoreMessage(heard, m, j);
        assert RowTells(b.rows[j], j, j in b.completed, EndOf(b, j), heard);
        hide Latest, LastWordHeard, AlwaysNamed;
      }
    }
  }

  lemma EndIsDelivered(b: Book, heard: seq<Message>, i: nat, end: End)
    requires Delivered(b, heard) && i < |b.rows| && i !in b.ends
    ensures Delivered(AfterEnd(b, i, end), heard)
  {
    hide Latest, LastWordHeard, AlwaysNamed;
    var c := AfterEnd(b, i, end);
    forall j: nat | j < |c.rows| ensures RowTells(c.rows[j], j, j in c.completed, EndOf(c, j), heard) {
      assert RowTells(b.rows[j], j, j in b.completed, EndOf(b, j), heard);
    }
  }

  lemma NothingHeardYet(size: nat)
    ensures Delivered(Opening(size), [])
  {
  }

  // ---- Every end has its incident ---------------------------------------------------------

  predicate Lost(incidents: seq<Incident>, i: nat) { HungUp(i) in incidents || FoundDead(i) in incidents }

  /** What must have happened for a target's work to end like this. */
  ghost predicate Witnessed(end: End, i: nat, completed: bool, incidents: seq<Incident>) {
    match end
    case NotStarted => multiset(incidents)[StartFailed(i)] >= 3
    case Gone => Lost(incidents, i)
    case SaidLast => completed
    case BrokeLate => HungUp(i) in incidents
    case Stopped => true
  }

  /** Every end has what it takes, and whoever was lost has ended for it, but for those in `but`, who are about to. */
  ghost predicate Founded(b: Book, incidents: seq<Incident>, but: set<nat>) {
    && (forall i :: i in b.ends ==> Witnessed(b.ends[i], i, i in b.completed, incidents))
    && (forall i: nat :: Lost(incidents, i) && i !in but ==> EndOf(b, i) in {Some(Gone), Some(BrokeLate)})
  }

  lemma FailuresCount(incidents: seq<Incident>, more: seq<Incident>, i: nat)
    ensures multiset(incidents + more)[StartFailed(i)] == multiset(incidents)[StartFailed(i)] + multiset(more)[StartFailed(i)]
    ensures Lost(incidents + more, i) <==> Lost(incidents, i) || Lost(more, i)
  {
  }

  /** More incidents take nothing away. */
  lemma FoundedGrows(b: Book, incidents: seq<Incident>, more: seq<Incident>, but: set<nat>)
    requires Founded(b, incidents, {}) && forall i: nat :: Lost(more, i) ==> i in but
    ensures Founded(b, incidents + more, but)
  {
    forall i | i in b.ends ensures Witnessed(b.ends[i], i, i in b.completed, incidents + more) {
      FailuresCount(incidents, more, i);
    }
    forall i: nat | Lost(incidents + more, i) && i !in but ensures EndOf(b, i) in {Some(Gone), Some(BrokeLate)} {
      FailuresCount(incidents, more, i);
    }
  }

  lemma AcceptIsFounded(b: Book, i: nat, m: Message, incidents: seq<Incident>, but: set<nat>)
    requires Founded(b, incidents, but) && i < |b.rows|
    ensures Founded(AfterAccept(b, i, m), incidents, but)
  {
    hide Lost;
    var c := AfterAccept(b, i, m);
    forall j | j in c.ends ensures Witnessed(c.ends[j], j, j in c.completed, incidents) {
      assert Witnessed(b.ends[j], j, j in b.completed, incidents);
    }
  }

  lemma EndIsFounded(b: Book, i: nat, end: End, incidents: seq<Incident>, but: set<nat>)
    requires Founded(b, incidents, but) && i < |b.rows| && i !in b.ends && but <= {i}
    requires Witnessed(end, i, i in b.completed, incidents) && (i in but ==> end in {Gone, BrokeLate})
    ensures Founded(AfterEnd(b, i, end), incidents, {})
  {
    hide Witnessed, Lost, Marked;
  }

  /** What the parent found when it began: ends and workers not its own, and how much had been heard and run into. */
  datatype Around = Around(outside: set<Handle>, base: nat, ceiling: nat, mark: nat, since: nat)

  /** Every worker in the books is heard on the pipe it was started on. */
  ghost predicate Owned(owner: map<Handle, nat>, active: map<nat, Handle>) {
    forall i :: i in active ==> active[i] in owner && owner[active[i]] == i
  }

  /** What the parent's surroundings amount to at one moment. */
  datatype Scene = Scene(open: set<Handle>, owner: map<Handle, nat>, live: nat, busiest: nat, heard: seq<Message>, incidents: seq<Incident>)

  ghost function Seen(machine: Machine): Scene
    reads machine
  {
    Scene(machine.open, machine.owner, machine.live, machine.busiest, machine.heard, machine.incidents)
  }

  function Told(s: Scene, around: Around): seq<Message> {
    if around.mark <= |s.heard| then s.heard[around.mark..] else []
  }

  function Ran(s: Scene, around: Around): seq<Incident> {
    if around.since <= |s.incidents| then s.incidents[around.since..] else []
  }

  /** As many workers as the books say run, each heard on a pipe end of its own, and no other end is left open. */
  ghost predicate Grip(s: Scene, around: Around, active: map<nat, Handle>) {
    && PipesOk(s.open, around.outside, active)
    && Owned(s.owner, active)
    && s.live == around.base + |active|
    && s.busiest <= around.ceiling && around.base + MAX_WORKERS <= around.ceiling
  }

  /** The parent's hold on its surroundings: its pipe ends, its workers, what it has heard from them and what became of them. */
  ghost predicate Hold(s: Scene, around: Around, b: Book, but: set<nat>) {
    && Grip(s, around, b.active)
    && around.mark <= |s.heard| && Delivered(b, Told(s, around))
    && around.since <= |s.incidents| && Founded(b, Ran(s, around), but)
  }

  lemma HoldsPipe(s: Scene, around: Around, b: Book, but: set<nat>, i: nat)
    requires Hold(s, around, b, but) && i in b.active
    ensures b.active[i] in s.open && b.active[i] in s.owner && s.owner[b.active[i]] == i
  {
    PipeHeld(s.open, around.outside, b.active, i);
  }

  lemma GripEnds(s: Scene, around: Around, active: map<nat, Handle>, i: nat)
    requires Grip(s, around, active) && i in active
    ensures active[i] in s.open && s.live > 0 && Grip(s.(open := s.open - {active[i]}, live := s.live - 1), around, active - {i})
  {
    PipeRemoved(s.open, around.outside, active, i);
    hide PipesOk;
    OneKeyLess(active, i);
  }

  /** Whoever ended is let go of. */
  lemma HoldEnds(s: Scene, around: Around, b: Book, size: nat, i: nat, end: End, but: set<nat>)
    requires BookOk(b, size) && Hold(s, around, b, but) && i in b.active
    requires but <= {i} && (i in but ==> end in {Gone, BrokeLate}) && Witnessed(end, i, i in b.completed, Ran(s, around))
    ensures i < |b.rows| && i !in b.ends && b.active[i] in s.open && s.live > 0
    ensures var c := AfterEnd(b, i, end);
            BookOk(c, size) && Hold(s.(open := s.open - {b.active[i]}, live := s.live - 1), around, c, {}) && c.active == b.active - {i}
  {
    ActiveIsStarted(b, size, i);
    EndKeepsBook(b, size, i, end);
    EndTouchesOne(b, i, end);
    hide BookOk, Grip, Delivered, Founded, Witnessed, AfterEnd;
    EndIsDelivered(b, Told(s, around), i, end);
    EndIsFounded(b, i, end, Ran(s, around), but);
    GripEnds(s, around, b.active, i);
  }

  /** A start touches nobody else's pipe. */
  lemma OwnersStay(s: Scene, t: Scene, around: Around, active: map<nat, Handle>, i: nat, h: Option<Handle>)
    requires PipesOk(s.open, around.outside, active) && Owned(s.owner, active) && Started(s, t, i, h)
    ensures Owned(t.owner, active)
  {
    forall j | j in active ensures active[j] in t.owner && t.owner[active[j]] == j {
      PipeHeld(s.open, around.outside, active, j);
    }
  }

  /** The new worker is the one its pipe was handed to. */
  lemma GripStarts(s: Scene, t: Scene, around: Around, active: map<nat, Handle>, i: nat, h: Option<Handle>)
    requires Grip(s, around, active) && i !in active && |active| < MAX_WORKERS && Started(s, t, i, h)
    ensures Grip(t, around, if h.Some? then active[i := h.value] else active)
  {
    hide PipesOk, Owned, Failures;
    OwnersStay(s, t, around, active, i, h);
    if h.Some? {
      OneKeyMore(active, i, h.value);
      OwnedMore(t.owner, active, i, h.value);
      PipeAdded(s.open, around.outside, active, i, h.value);
    }
  }

  lemma OwnedMore(owner: map<Handle, nat>, active: map<nat, Handle>, i: nat, h: Handle)
    requires Owned(owner, active) && h in owner && owner[h] == i
    ensures Owned(owner, active[i := h])
  {
  }

  /** What an attempted start leaves of the surroundings. */
  ghost predicate Started(s: Scene, t: Scene, i: nat, h: Option<Handle>) {
    && (forall x :: x in s.open && x in s.owner ==> x in t.owner && t.owner[x] == s.owner[x])
    && (h.Some? ==> h.value !in s.open && h.value in t.owner && t.owner[h.value] == i)
    && t.open == s.open + (if h.Some? then {h.value} else {})
    && t.live == s.live + (if h.Some? then 1 else 0)
    && (t.busiest == s.busiest || t.busiest == t.live)
    && t.heard == s.heard
    && (exists n: nat :: n <= 3 && (h.None? <==> n == 3) && t.incidents == s.incidents + Failures(i, n))
  }

  lemma StartRuns(s: Scene, t: Scene, around: Around, i: nat, h: Option<Handle>)
    requires Started(s, t, i, h) && around.since <= |s.incidents|
    ensures Told(t, around) == Told(s, around) && t.heard == s.heard && |s.incidents| <= |t.incidents|
    ensures exists n: nat :: n <= 3 && (h.None? <==> n == 3) && Ran(t, around) == Ran(s, around) + Failures(i, n)
  {
    var n: nat :| n <= 3 && (h.None? <==> n == 3) && t.incidents == s.incidents + Failures(i, n);
    hide Failures;
    assert Ran(t, around) == Ran(s, around) + Failures(i, n);
  }

  lemma HoldStarts(s: Scene, t: Scene, around: Around, b: Book, size: nat, h: Option<Handle>)
    requires BookOk(b, size) && Hold(s, around, b, {}) && b.pending != [] && |b.active| < MAX_WORKERS && Started(s, t, b.pending[0], h)
    ensures b.pending[0] < |b.rows|
    ensures var c := AfterLaunch(b, h); BookOk(c, size) && Hold(t, around, c, {}) && Adds(b, c, Kinds(false))
  {
    hide BookOk, Grip, Delivered, Founded, Failures, Started, AfterLaunch, Adds, Ran, Told;
    StartRuns(s, t, around, b.pending[0], h);
    var n: nat :| n <= 3 && (h.None? <==> n == 3) && Ran(t, around) == Ran(s, around) + Failures(b.pending[0], n);
    LaunchKeepsBook(b, size, h);
    QueueHead(b, size);
    LaunchIsDelivered(b, h, Told(s, around));
    LaunchIsFounded(b, h, Ran(s, around), n);
    GripStarts(s, t, around, b.active, b.pending[0], h);
  }

  lemma HoldListens(s: Scene, around: Around, b: Book, size: nat, i: nat, m: Message, last: bool, but: set<nat>)
    requires BookOk(b, size) && i in b.active && Hold(s, around, b, but) && m.row.target == i
    ensures i < |b.rows|
    ensures var t, c := s.(heard := s.heard + [m]), if last then AfterLastLook(b, i, m) else AfterAccept(b, i, m);
            && BookOk(c, size) && Hold(t, around, c, but) && Ran(t, around) == Ran(s, around)
            && c.active == b.active && c.completed == b.completed + if m.final then {i} else {}
  {
    hide BookOk, Grip, Delivered, Founded, AfterAccept, AfterLastLook;
    var t := s.(heard := s.heard + [m]);
    assert Told(t, around) == Told(s, around) + [m] && Ran(t, around) == Ran(s, around);
    hide Told, Ran;
    HeardMore(b, size, i, m, last, Told(s, around), Ran(s, around), but);
    GripSame(s, t, around, b.active);
  }

  /** Whoever is lost must be let go of next. */
  lemma HoldLoses(s: Scene, around: Around, b: Book, i: nat, e: Incident, but: set<nat>)
    requires Hold(s, around, b, but) && but <= {i} && e in {HungUp(i), FoundDead(i)}
    ensures var t := s.(incidents := s.incidents + [e]);
            Hold(t, around, b, {i}) && Ran(t, around) == Ran(s, around) + [e] && Lost(Ran(t, around), i)
  {
    hide Grip, Delivered, Founded;
    var t := s.(incidents := s.incidents + [e]);
    assert Ran(t, around) == Ran(s, around) + [e];
    LostOne(b, Ran(s, around), i, e, but);
    GripSame(s, t, around, b.active);
  }

  lemma GripSame(s: Scene, t: Scene, around: Around, active: map<nat, Handle>)
    requires Grip(s, around, active) && t == s.(heard := t.heard, incidents := t.incidents)
    ensures Grip(t, around, active)
  {
  }

  /** Everything is in order, but for those in `but`, who are lost and about to be let go of. */
  ghost predicate Steady(machine: Machine, around: Around, b: Book, size: nat, but: set<nat>)
    reads machine
  {
    machine.Valid() && BookOk(b, size) && Hold(Seen(machine), around, b, but)
  }

  lemma SteadyPipe(machine: Machine, around: Around, b: Book, size: nat, but: set<nat>, i: nat)
    requires Steady(machine, around, b, size, but) && i in b.active
    ensures i < |b.rows| && i !in b.ends
    ensures b.active[i] in machine.open && b.active[i] in machine.owner && machine.owner[b.active[i]] == i
  {
    ActiveIsStarted(b, size, i);
    HoldsPipe(Seen(machine), around, b, but, i);
  }

  /** How a target can end while collecting, and how in the grace window. */
  function Kinds(late: bool): set<End> { if late then {SaidLast, BrokeLate} else {NotStarted, Gone} }

  /** Ends are only added, and of these kinds only. */
  ghost predicate Adds(b: Book, c: Book, kinds: set<End>) {
    && (forall i :: i in b.ends ==> EndOf(c, i) == EndOf(b, i))
    && (forall i :: i in c.ends && i !in b.ends ==> c.ends[i] in kinds)
  }

  lemma AddsMore(a: Book, b: Book, c: Book, kinds: set<End>)
    requires Adds(a, b, kinds) && Adds(b, c, kinds)
    ensures Adds(a, c, kinds)
  {
    forall i | i in a.ends ensures EndOf(c, i) == EndOf(a, i) { assert EndOf(b, i) == EndOf(a, i); }
  }

  /** How many workers are running. */
  function Running(b: Book): nat { |b.active| }

  /** From b to c no target was started, some may have ended in these ways, and more may have been run into. */
  ghost predicate Advances(b: Book, c: Book, kinds: set<End>, was: seq<Incident>, now: seq<Incident>) {
    c.pending == b.pending && c.active.Keys <= b.active.Keys && Adds(b, c, kinds) && was <= now
  }

  lemma AdvancesMore(a: Book, b: Book, c: Book, kinds: set<End>, first: seq<Incident>, second: seq<Incident>, third: seq<Incident>)
    requires Advances(a, b, kinds, first, second) && Advances(b, c, kinds, second, third)
    ensures Advances(a, c, kinds, first, third) && Running(c) <= Running(b)
  {
    AddsMore(a, b, c, kinds);
    FewerKeys(c.active, b.active);
  }

  lemma AdvancesAdds(a: Book, b: Book, c: Book, kinds: set<End>, first: seq<Incident>, second: seq<Incident>)
    requires Adds(a, b, kinds) && Advances(b, c, kinds, first, second)
    ensures Adds(a, c, kinds) && c.pending == b.pending
    ensures Running(c) <= Running(b)
  {
    AddsMore(a, b, c, kinds);
    FewerKeys(c.active, b.active);
  }

  lemma NothingAdvances(b: Book, kinds: set<End>, ran: seq<Incident>)
    ensures Advances(b, b, kinds, ran, ran)
  {
  }

  // ---- The parent's loops ---------------------------------------------------------------

  /** Up to three attempts on fresh pipes; a failed attempt closes both of its ends, a good one the worker's end. */
  method Spawn(machine: Machine, target: nat) returns (receive: Option<Handle>)
    requires machine.Valid()
    modifies machine
    ensures machine.Valid() && old(machine.now) <= machine.now
    ensures Started(old(Seen(machine)), Seen(machine), target, receive)
    ensures At(machine.plan, old(machine.tick)).yes ==>
              receive.Some? && machine.tick == old(machine.tick) + 1 && machine.now == old(machine.now) + At(machine.plan, old(machine.tick)).elapsed
  {
    for attempt := 0 to 3
      invariant machine.Valid() && old(machine.now) <= machine.now && machine.heard == old(machine.heard)
      invariant machine.open == old(machine.open) && machine.live == old(machine.live)
      invariant machine.busiest == old(machine.busiest) || machine.busiest == machine.live
      invariant forall h :: h in old(machine.open) && h in old(machine.owner) ==> h in machine.owner && machine.owner[h] == old(machine.owner)[h]
      invariant machine.incidents == old(machine.incidents) + Failures(target, attempt)
      invariant if attempt == 0 then machine.tick == old(machine.tick) && machine.now == old(machine.now) else !At(machine.plan, old(machine.tick)).yes
    {
      if attempt > 0 { machine.Sleep(200 * attempt); }
      var r, s := machine.Pipe();
      var begun := machine.Start(target, r);
      if begun {
        machine.Close(s);
        return Some(r);
      }
      assert Failures(target, attempt + 1) == Failures(target, attempt) + [StartFailed(target)];
      machine.Close(r);
      machine.Close(s);
    }
    receive := None;
  }

  ghost function Failures(target: nat, n: nat): seq<Incident> { seq(n, _ => StartFailed(target)) }

  lemma LaunchIsDelivered(b: Book, h: Option<Handle>, heard: seq<Message>)
    requires Delivered(b, heard) && b.pending != [] && b.pending[0] < |b.rows| && b.pending[0] !in b.active && b.pending[0] !in b.ends
    ensures Delivered(AfterLaunch(b, h), heard)
  {
    LaunchTouchesOne(b, h);
    var i, c := b.pending[0], AfterLaunch(b, h);
    if h.None? { EndIsDelivered(b, heard, i, NotStarted); }
    hide AfterLaunch, RowTells, Marked;
    forall j: nat | j < |c.rows| ensures RowTells(c.rows[j], j, j in c.completed, EndOf(c, j), heard) {
      var d := if h.None? then AfterEnd(b, i, NotStarted) else b;
      assert c.rows == d.rows && c.completed == d.completed && c.ends == d.ends;
      assert RowTells(d.rows[j], j, j in d.completed, EndOf(d, j), heard);
    }
  }

  lemma LaunchIsFounded(b: Book, h: Option<Handle>, incidents: seq<Incident>, n: nat)
    requires Founded(b, incidents, {}) && b.pending != [] && b.pending[0] < |b.rows| && b.pending[0] !in b.ends
    requires n <= 3 && (h.None? <==> n == 3)
    ensures Founded(AfterLaunch(b, h), incidents + Failures(b.pending[0], n), {})
    ensures Adds(b, AfterLaunch(b, h), Kinds(false))
  {
    var i := b.pending[0];
    NoneLost(i, n);
    FoundedGrows(b, incidents, Failures(i, n), {});
    hide Founded, Lost, Marked;
    if h.None? {
      ThreeFailures(incidents, i);
      hide Failures;
      PoppedIsFounded(b, incidents + Failures(i, n));
      EndIsFounded(b.(pending := b.pending[1..], started := b.started + 1), i, NotStarted, incidents + Failures(i, n), {});
    } else {
      HeldIsFounded(b, h.value, incidents + Failures(i, n));
    }
  }

  lemma NoneLost(i: nat, n: nat)
    ensures forall j: nat :: !Lost(Failures(i, n), j)
  {
  }

  lemma ThreeFailures(incidents: seq<Incident>, i: nat)
    ensures multiset(incidents + Failures(i, 3))[StartFailed(i)] >= 3
  {
    assert Failures(i, 3) == [StartFailed(i), StartFailed(i), StartFailed(i)];
    FailuresCount(incidents, Failures(i, 3), i);
  }

  /** Founding looks at neither the queue nor the workers. */
  lemma PoppedIsFounded(b: Book, incidents: seq<Incident>)
    requires Founded(b, incidents, {}) && b.pending != []
    ensures Founded(b.(pending := b.pending[1..], started := b.started + 1), incidents, {})
  {
  }

  lemma HeldIsFounded(b: Book, h: Handle, incidents: seq<Incident>)
    requires Founded(b, incidents, {}) && b.pending != [] && b.pending[0] < |b.rows|
    ensures Founded(AfterLaunch(b, Some(h)), incidents, {})
  {
  }

  method LaunchNext(b: Book, machine: Machine, size: nat, ghost around: Around) returns (c: Book)
    requires Steady(machine, around, b, size, {})
    requires b.pending != [] && Running(b) < MAX_WORKERS
    modifies machine
    ensures Steady(machine, around, c, size, {}) && old(machine.now) <= machine.now
    ensures |c.pending| == |b.pending| - 1 && Adds(b, c, Kinds(false))
    ensures exists h :: b.pending[0] < |b.rows| && c == AfterLaunch(b, h) && (At(machine.plan, old(machine.tick)).yes ==> h.Some?)
    ensures Running(c) <= Running(b) + 1
    ensures var chance := At(machine.plan, old(machine.tick));
            chance.yes ==> machine.tick == old(machine.tick) + 1 && machine.now == old(machine.now) + chance.elapsed && Running(c) == Running(b) + 1
  {
    hide BookOk, Hold, Adds, Started, AfterLaunch;
    var h := Spawn(machine, b.pending[0]);
    LaunchKeepsBook(b, size, h);
    HoldStarts(old(Seen(machine)), Seen(machine), around, b, size, h);
    c := AfterLaunch(b, h);
    LaunchShrinksQueue(b, h);
  }

  lemma LaunchShrinksQueue(b: Book, h: Option<Handle>)
    requires b.pending != [] && b.pending[0] < |b.rows|
    ensures |AfterLaunch(b, h).pending| == |b.pending| - 1
  {
  }

  /** Note how it ended, close the worker's pipe and see it off. */
  method Retire(b: Book, machine: Machine, size: nat, i: nat, end: End, ghost around: Around, ghost but: set<nat>) returns (c: Book)
    requires Steady(machine, around, b, size, but) && i in b.active
    requires but <= {i} && (i in but ==> end in {Gone, BrokeLate})
    requires Witnessed(end, i, i in b.completed, Ran(Seen(machine), around))
    modifies machine
    ensures Steady(machine, around, c, size, {}) && old(machine.now) <= machine.now
    ensures i < |b.rows| && c == AfterEnd(b, i, end) && i !in b.ends
    ensures Ran(Seen(machine), around) == old(Ran(Seen(machine), around))
  {
    hide BookOk, Hold, AfterEnd, Witnessed;
    HoldEnds(Seen(machine), around, b, size, i, end, but);
    machine.Close(b.active[i]);
    machine.Reap();
    c := AfterEnd(b, i, end);
  }

  lemma AcceptTouchesLittle(b: Book, i: nat, m: Message)
    requires i < |b.rows|
    ensures var c := AfterAccept(b, i, m);
            && c.active == b.active && c.pending == b.pending && c.ends == b.ends
            && c.completed == b.completed + (if m.final then {i} else {})
  {
  }

  lemma HeardMore(b: Book, size: nat, i: nat, m: Message, last: bool, heard: seq<Message>, incidents: seq<Incident>, but: set<nat>)
    requires BookOk(b, size) && i in b.active && m.row.target == i && Delivered(b, heard) && Founded(b, incidents, but)
    ensures i < |b.rows|
    ensures var c := if last then AfterLastLook(b, i, m) else AfterAccept(b, i, m);
            && BookOk(c, size) && Delivered(c, heard + [m]) && Founded(c, incidents, but)
            && c.active == b.active && c.pending == b.pending && c.ends == b.ends
            && c.completed == b.completed + (if m.final then {i} else {})
  {
    ActiveIsStarted(b, size, i);
    hide BookOk, Founded, Delivered, AfterAccept;
    var kept := if m.named || !last then m else Message(m.final, true, b.rows[i]);
    AcceptKeepsBook(b, size, i, kept);
    AcceptIsFounded(b, i, kept, incidents, but);
    AcceptTouchesLittle(b, i, kept);
    if last { LastLookIsDelivered(b, heard, i, m); } else { AcceptIsDelivered(b, heard, i, m); }
  }

  /**
   * Receive from a worker and file what it said; None when its pipe is broken.
   * `last` is for a worker already found dead.
   */
  method Hear(b: Book, machine: Machine, size: nat, i: nat, last: bool, ghost around: Around) returns (m: Option<Message>, c: Book)
    requires Steady(machine, around, b, size, if last then {i} else {}) && i in b.active
    modifies machine
    ensures m == Signed(At(machine.plan, old(machine.tick)).message, i)
    ensures i < |b.rows| && c == if m.None? then b else if last then AfterLastLook(b, i, m.value) else AfterAccept(b, i, m.value)
    ensures c.active == b.active && (m.Some? ==> c.completed == b.completed + if m.value.final then {i} else {})
    ensures Steady(machine, around, c, size, if last || m.None? then {i} else {})
    ensures Ran(Seen(machine), around) == old(Ran(Seen(machine), around)) + if m.None? then [HungUp(i)] else []
    ensures old(machine.now) <= machine.now && machine.tick == old(machine.tick) + 1
  {
    hide BookOk, Hold, AfterAccept, AfterLastLook, Ran;
    SteadyPipe(machine, around, b, size, if last then {i} else {}, i);
    m := machine.Recv(b.active[i]);
    ghost var was := old(Seen(machine));
    c := b;
    if m.Some? {
      HoldListens(was, around, b, size, i, m.value, last, if last then {i} else {});
      assert Seen(machine) == was.(heard := was.heard + [m.value]);
      c := if last then AfterLastLook(b, i, m.value) else AfterAccept(b, i, m.value);
    } else {
      HoldLoses(was, around, b, i, HungUp(i), if last then {i} else {});
      assert Seen(machine) == was.(incidents := was.incidents + [HungUp(i)]);
    }
  }

  lemma LostOne(b: Book, incidents: seq<Incident>, i: nat, e: Incident, but: set<nat>)
    requires Founded(b, incidents, but) && but <= {i} && e in {HungUp(i), FoundDead(i)}
    ensures Founded(b, incidents + [e], {i})
  {
    forall j | j in b.ends ensures Witnessed(b.ends[j], j, j in b.completed, incidents + [e]) {
      FailuresCount(incidents, [e], j);
    }
    forall j: nat | Lost(incidents + [e], j) && j != i ensures EndOf(b, j) in {Some(Gone), Some(BrokeLate)} {
      FailuresCount(incidents, [e], j);
    }
  }

  /** A worker that is not running any more: what it left in its pipe may still hold its last word. */
  method Bury(b: Book, machine: Machine, size: nat, i: nat, ghost around: Around) returns (c: Book)
    requires Steady(machine, around, b, size, {i}) && i in b.active
    requires Lost(Ran(Seen(machine), around), i)
    modifies machine
    ensures Steady(machine, around, c, size, {}) && old(machine.now) <= machine.now
    ensures i < |b.rows| && c == Buried(b, i, machine.plan, old(machine.tick)) && old(Ran(Seen(machine), around)) <= Ran(Seen(machine), around)
  {
    hide Steady, At, AfterEnd, AfterLastLook, Ran, Seen;
    SteadyPipe(machine, around, b, size, {i}, i);
    c := b;
    var ready := Look(b, machine, size, i, around, {i});
    if ready {
      var m;
      m, c := Hear(b, machine, size, i, true, around);
    }
    c := Retire(c, machine, size, i, Gone, around, {i});
  }

  /** One look at one worker before the deadline. */
  method Attend(b: Book, machine: Machine, size: nat, i: nat, ghost around: Around) returns (c: Book)
    requires Steady(machine, around, b, size, {}) && i in b.active
    modifies machine
    ensures Steady(machine, around, c, size, {}) && old(machine.now) <= machine.now
    ensures i < |b.rows| && c == Attended(b, i, machine.plan, old(machine.tick)) && old(Ran(Seen(machine), around)) <= Ran(Seen(machine), around)
    ensures var k, p := old(machine.tick), machine.plan; At(p, k).yes && At(p, k + 1).message.Some? ==> machine.tick == k + 2
  {
    hide Steady, At, AfterEnd, AfterLastLook, AfterAccept, Ran, Seen;
    SteadyPipe(machine, around, b, size, {}, i);
    c := b;
    var ready := Look(b, machine, size, i, around, {});
    if ready {
      var m;
      m, c := Hear(b, machine, size, i, false, around);
      if m.None? {
        c := Retire(c, machine, size, i, Gone, around, {i});
      }
      return;
    }
    var alive := IsAlive(b, machine, size, i, around);
    if !alive {
      c := Bury(b, machine, size, i, around);
    }
  }

  /** Whether anything waits in a worker's pipe. */
  method Look(b: Book, machine: Machine, size: nat, i: nat, ghost around: Around, ghost but: set<nat>) returns (ready: bool)
    requires Steady(machine, around, b, size, but) && i in b.active
    modifies machine`now, machine`tick
    ensures Steady(machine, around, b, size, but) && Seen(machine) == old(Seen(machine))
    ensures ready == At(machine.plan, old(machine.tick)).yes
    ensures old(machine.now) <= machine.now && machine.tick == old(machine.tick) + 1
  {
    hide Hold, BookOk;
    SteadyPipe(machine, around, b, size, but, i);
    ready := machine.Poll(b.active[i]);
  }

  method IsAlive(b: Book, machine: Machine, size: nat, i: nat, ghost around: Around) returns (alive: bool)
    requires Steady(machine, around, b, size, {}) && i in b.active
    modifies machine`now, machine`tick, machine`incidents
    ensures Steady(machine, around, b, size, if alive then {} else {i})
    ensures alive == At(machine.plan, old(machine.tick)).yes
    ensures (!alive ==> Lost(Ran(Seen(machine), around), i)) && old(Ran(Seen(machine), around)) <= Ran(Seen(machine), around)
    ensures old(machine.now) <= machine.now && machine.tick == old(machine.tick) + 1
  {
    hide Hold, BookOk, Ran;
    SteadyPipe(machine, around, b, size, {}, i);
    HoldLoses(Seen(machine), around, b, i, FoundDead(i), {});
    alive := machine.Ask(b.active[i]);
    ghost var was := old(Seen(machine));
    assert Seen(machine) == if alive then was else was.(incidents := was.incidents + [FoundDead(i)]);
  }

  /** One look at one worker in the grace window; a broken pipe retires it without a word on its row. */
  method AttendLate(b: Book, machine: Machine, size: nat, i: nat, ghost around: Around) returns (c: Book)
    requires Steady(machine, around, b, size, {}) && i in b.active
    modifies machine
    ensures Steady(machine, around, c, size, {}) && old(machine.now) <= machine.now
    ensures i < |b.rows| && c == AttendedLate(b, i, machine.plan, old(machine.tick))
    ensures old(Ran(Seen(machine), around)) <= Ran(Seen(machine), around)
  {
    hide Steady, At, AfterEnd, AfterAccept, Ran, Seen;
    SteadyPipe(machine, around, b, size, {}, i);
    c := b;
    var ready := Look(b, machine, size, i, around, {});
    if ready {
      var m;
      m, c := Hear(b, machine, size, i, false, around);
      if m.None? {
        c := Retire(c, machine, size, i, BrokeLate, around, {i});
        return;
      }
      if m.value.final {
        c := Retire(c, machine, size, i, SaidLast, around, {});
      }
    }
  }

  lemma LookIs(b: Book, i: nat, late: bool, plan: nat -> Chance, k: nat)
    requires i < |b.rows| && i !in b.ends && i in b.active
    ensures var c := LookedAt(b, i, late, plan, k);
            && c.pending == b.pending && Adds(b, c, Kinds(late))
            && b.active.Keys - {i} <= c.active.Keys <= b.active.Keys
  {
    hide Marked, Signed;
  }

  /** Only the worker of target 0 is running. */
  ghost predicate Alone(b: Book) { b.active.Keys == {0} }

  lemma Nonempty(b: Book)
    requires Running(b) > 0
    ensures exists i :: i in b.active
  {
    assert |b.active| == |b.active.Keys|;
  }

  lemma FewerKeys(c: map<nat, Handle>, b: map<nat, Handle>)
    requires c.Keys <= b.Keys
    ensures |c| <= |b|
  {
    SmallerSet(c.Keys, b.Keys);
    assert |c| == |c.Keys| && |b| == |b.Keys|;
  }

  lemma SmallerSet(a: set<nat>, b: set<nat>)
    requires a <= b
    ensures |a| <= |b|
  {
    assert b == a + (b - a);
    assert |b| == |a| + |b - a|;
  }

  lemma OpeningOk(size: nat)
    ensures BookOk(Opening(size), size)
  {
    assert Opening(size).active.Keys == {};
  }

  function Left(until: int, now: int): nat { if now < until then until - now else 0 }

  /** One look of either kind. */
  method LookAt(b: Book, machine: Machine, size: nat, i: nat, late: bool, ghost around: Around) returns (c: Book)
    requires Steady(machine, around, b, size, {}) && i in b.active
    modifies machine
    ensures Steady(machine, around, c, size, {}) && old(machine.now) <= machine.now
    ensures i < |b.rows| && c == LookedAt(b, i, late, machine.plan, old(machine.tick))
    ensures var k, p := old(machine.tick), machine.plan; !late && At(p, k).yes && At(p, k + 1).message.Some? ==> machine.tick == k + 2
    ensures Advances(b, c, Kinds(late), old(Ran(Seen(machine), around)), Ran(Seen(machine), around)) && b.active.Keys - {i} <= c.active.Keys
  {
    hide Steady, At, Attended, AttendedLate, Ran, Seen, Adds, Kinds;
    SteadyPipe(machine, around, b, size, {}, i);
    LookIs(b, i, late, machine.plan, machine.tick);
    if late {
      c := AttendLate(b, machine, size, i, around);
    } else {
      c := Attend(b, machine, size, i, around);
    }
  }

  function LookedAt(b: Book, i: nat, late: bool, plan: nat -> Chance, k: nat): Book
    requires i < |b.rows|
  {
    if late then AttendedLate(b, i, plan, k) else Attended(b, i, plan, k)
  }

  /** Look once at every worker there was at the start. */
  method AttendAll(b: Book, machine: Machine, size: nat, late: bool, ghost around: Around) returns (c: Book)
    requires Steady(machine, around, b, size, {})
    modifies machine
    ensures Steady(machine, around, c, size, {}) && old(machine.now) <= machine.now
    ensures Advances(b, c, Kinds(late), old(Ran(Seen(machine), around)), Ran(Seen(machine), around))
    ensures Alone(b) ==> 0 < |b.rows| && c == LookedAt(b, 0, late, machine.plan, old(machine.tick))
    ensures var k, p := old(machine.tick), machine.plan;
            Alone(b) && !late && At(p, k).yes && At(p, k + 1).message.Some? ==> machine.tick == k + 2
  {
    hide Steady, At, LookedAt, Ran, Seen, Kinds, Adds, Running;
    c := b;
    var todo := b.active.Keys;
    NothingAdvances(b, Kinds(late), Ran(Seen(machine), around));
    while todo != {}
      invariant Steady(machine, around, c, size, {}) && old(machine.now) <= machine.now
      invariant todo <= b.active.Keys && todo <= c.active.Keys
      invariant Advances(b, c, Kinds(late), old(Ran(Seen(machine), around)), Ran(Seen(machine), around))
      invariant todo == b.active.Keys ==> c == b && machine.tick == old(machine.tick)
      invariant Alone(b) && todo == {} ==> 0 < |b.rows| && c == LookedAt(b, 0, late, machine.plan, old(machine.tick))
      invariant var k, p := old(machine.tick), machine.plan;
                Alone(b) && todo == {} && !late && At(p, k).yes && At(p, k + 1).message.Some? ==> machine.tick == k + 2
      decreases todo
    {
      var i :| i in todo;
      ghost var was, ran := c, Ran(Seen(machine), around);
      c := LookAt(c, machine, size, i, late, around);
      AdvancesMore(b, was, c, Kinds(late), old(Ran(Seen(machine), around)), ran, Ran(Seen(machine), around));
      todo := todo - {i};
    }
  }

  lemma NothingAdded(b: Book, kinds: set<End>)
    ensures Adds(b, b, kinds)
  {
  }

  method Pause(b: Book, machine: Machine, size: nat, ms: nat, ghost around: Around)
    requires Steady(machine, around, b, size, {})
    modifies machine`now, machine`tick
    ensures Steady(machine, around, b, size, {}) && Seen(machine) == old(Seen(machine)) && old(machine.now) + ms <= machine.now
  {
    hide Hold, BookOk;
    machine.Sleep(ms);
  }

  method Time(b: Book, machine: Machine, size: nat, ghost around: Around) returns (t: int)
    requires Steady(machine, around, b, size, {})
    modifies machine`now, machine`tick
    ensures Steady(machine, around, b, size, {}) && Seen(machine) == old(Seen(machine))
    ensures machine.now == t == old(machine.now) + At(machine.plan, old(machine.tick)).elapsed && machine.tick == old(machine.tick) + 1
  {
    hide Hold, BookOk;
    t := machine.Clock();
  }

  /** A run of chances: one worker starts at once, says one thing that is not its last word, and the deadline passes. */
  ghost predicate SaysOneThing(plan: nat -> Chance, k: nat, left: int) {
    && left > 0
    && At(plan, k).elapsed == At(plan, k + 1).elapsed == 0
    && At(plan, k + 2).yes && At(plan, k + 3).yes
    && At(plan, k + 4).message.Some? && At(plan, k + 4).message.value.named && !At(plan, k + 4).message.value.final
    && At(plan, k + 5).elapsed >= left
  }

  /** A run of chances: at the first look in the grace window the pipe turns out to be broken. */
  ghost predicate BreaksLate(plan: nat -> Chance, k: nat) {
    At(plan, k).elapsed < GRACE_MS && At(plan, k + 1).yes && At(plan, k + 2).message.None?
  }

  /** The only target has been started, and nothing else has happened. */
  ghost predicate JustLaunched(b: Book) {
    b.rows == [Unobserved(0)] && b.pending == [] && Alone(b) && b.completed == {} && b.ends == map[] && b.started == 1
  }

  /** The only target is running and has said this. */
  ghost predicate HasSaid(b: Book, m: Option<Message>) {
    && m.Some? && b.rows == [m.value.row] && b.pending == [] && b.active.Keys == {0}
    && b.completed == {} && b.ends == map[] && b.started == 1
  }

  lemma LaunchesOne(h: Option<Handle>)
    requires h.Some?
    ensures Opening(1).pending != [] && Opening(1).pending[0] < |Opening(1).rows| && JustLaunched(AfterLaunch(Opening(1), h))
  {
    var c := AfterLaunch(Opening(1), h);
    assert c.active.Keys == {0};
  }

  lemma HearsOne(b: Book, plan: nat -> Chance, k: nat)
    requires JustLaunched(b) && At(plan, k).yes && At(plan, k + 1).message.Some? && At(plan, k + 1).message.value.named && !At(plan, k + 1).message.value.final
    ensures HasSaid(LookedAt(b, 0, false, plan, k), Signed(At(plan, k + 1).message, 0))
  {
  }

  lemma OpeningIsWaiting(size: nat)
    ensures |Opening(size).pending| == size && Running(Opening(size)) == 0
  {
  }

  /** The next n chances take no time, and nothing goes wrong in them. */
  ghost predicate Prompt(plan: nat -> Chance, k: nat, n: nat) {
    forall j: nat :: k <= j < k + n ==> At(plan, j).elapsed == 0 && At(plan, j).yes
  }

  lemma PromptAt(plan: nat -> Chance, k: nat, n: nat, j: nat)
    requires Prompt(plan, k, n) && k <= j < k + n
    ensures At(plan, j).elapsed == 0 && At(plan, j).yes && (j == k ==> Prompt(plan, k + 1, n - 1))
  {
    hide At;
  }

  /** Fill the free places from the queue, until the deadline. */
  method Launch(deadline: int, start: Book, machine: Machine, size: nat, ghost around: Around) returns (b: Book)
    requires Steady(machine, around, start, size, {})
    modifies machine
    ensures Steady(machine, around, b, size, {}) && old(machine.now) <= machine.now
    ensures Adds(start, b, Kinds(false))
    ensures |b.pending| <= |start.pending| && (|b.pending| == |start.pending| ==> Running(b) == Running(start))
    ensures b.pending == [] || Running(b) >= MAX_WORKERS || deadline <= machine.now
    ensures |b.pending| + Running(b) <= |start.pending| + Running(start)
    ensures Running(start) == 0 && old(machine.now) < deadline && Prompt(machine.plan, old(machine.tick), 2 * MAX_WORKERS) ==> machine.now == old(machine.now)
    ensures var k, p := old(machine.tick), machine.plan;
            start == Opening(1) && old(machine.now) + At(p, k).elapsed < deadline && At(p, k + 1).yes ==> machine.tick == k + 2 && JustLaunched(b)
  {
    hide Steady, At, Seen, Adds, Opening, JustLaunched, AfterLaunch, Kinds, Running, Prompt;
    b := start;
    NothingAdded(start, Kinds(false));
    ghost var k, p := machine.tick, machine.plan;
    ghost var told := start == Opening(1) && machine.now + At(p, k).elapsed < deadline && At(p, k + 1).yes;
    ghost var prompt := Running(start) == 0 && machine.now < deadline && Prompt(p, k, 2 * MAX_WORKERS);
    OpeningIsWaiting(1);
    while b.pending != [] && Running(b) < MAX_WORKERS
      invariant Steady(machine, around, b, size, {}) && old(machine.now) <= machine.now
      invariant Adds(start, b, Kinds(false))
      invariant |b.pending| <= |start.pending| && (|b.pending| == |start.pending| ==> Running(b) == Running(start))
      invariant told ==> if |b.pending| == |start.pending| then b == start && machine.tick == k && machine.now == old(machine.now)
                         else machine.tick == k + 2 && JustLaunched(b)
      invariant |b.pending| + Running(b) <= |start.pending| + Running(start)
      invariant prompt ==> machine.tick == k + 2 * Running(b) && machine.now == old(machine.now)
      decreases |b.pending|
    {
      if prompt { PromptAt(p, k, 2 * MAX_WORKERS, machine.tick); PromptAt(p, k, 2 * MAX_WORKERS, machine.tick + 1); }
      var t := Time(b, machine, size, around);
      if t >= deadline { break; }
      ghost var was := b;
      b := LaunchNext(b, machine, size, around);
      AddsMore(start, was, b, Kinds(false));
      if told {
        ghost var h :| was.pending[0] < |was.rows| && b == AfterLaunch(was, h) && h.Some?;
        LaunchesOne(h);
      }
    }
  }

  /** Until the deadline: keep at most four workers busy and take what they send. Only the deadline stops it short. */
  method CollectUntil(deadline: int, start: Book, machine: Machine, size: nat, ghost around: Around) returns (b: Book)
    requires Steady(machine, around, start, size, {})
    modifies machine
    ensures Steady(machine, around, b, size, {}) && old(machine.now) <= machine.now
    ensures Adds(start, b, Kinds(false))
    ensures (b.pending == [] && Running(b) == 0) || deadline <= machine.now
    ensures Running(start) == 0 && old(machine.now) < deadline && Prompt(machine.plan, old(machine.tick), 2 * MAX_WORKERS + 1) ==>
              Filled(b, start)
    ensures var k, p := old(machine.tick), machine.plan;
            start == Opening(1) && SaysOneThing(p, k, deadline - old(machine.now)) ==> machine.tick == k + 6 && HasSaid(b, Signed(At(p, k + 4).message, 0))
  {
    hide Steady, At, Seen, Adds, Opening, HasSaid, SaysOneThing, Kinds, Running, Prompt, Filled, Left;
    b := start;
    NothingAdded(start, Kinds(false));
    ghost var k := machine.tick;
    ghost var told := start == Opening(1) && SaysOneThing(machine.plan, k, deadline - machine.now);
    ghost var prompt := Running(start) == 0 && machine.now < deadline && Prompt(machine.plan, k, 2 * MAX_WORKERS + 1);
    ghost var first := true;
    OpeningIsWaiting(1);
    EmptyIsFilled(start);
    while b.pending != [] || Running(b) > 0
      invariant Steady(machine, around, b, size, {}) && old(machine.now) <= machine.now
      invariant Adds(start, b, Kinds(false)) && |b.pending| <= |start.pending|
      invariant first ==> b == start && machine.tick == k && machine.now == old(machine.now)
      invariant !first ==> !told && (prompt ==> Filled(b, start))
      decreases |b.pending|, Left(deadline, machine.now), Running(b)
    {
      ghost var was := b;
      var over;
      b, over := CollectOnce(deadline, b, machine, size, around);
      AddsMore(start, was, b, Kinds(false));
      StaysFilled(was, b, start);
      first := false;
      if over { break; }
    }
  }

  /** One round before the deadline, which may pass in the middle of it. */
  method CollectOnce(deadline: int, b: Book, machine: Machine, size: nat, ghost around: Around) returns (c: Book, over: bool)
    requires Steady(machine, around, b, size, {}) && (b.pending != [] || Running(b) > 0)
    modifies machine
    ensures Steady(machine, around, c, size, {}) && old(machine.now) <= machine.now
    ensures Adds(b, c, Kinds(false)) && |c.pending| <= |b.pending|
    ensures over ==> deadline <= machine.now
    ensures !over && |c.pending| == |b.pending| ==>
              Left(deadline, machine.now) < Left(deadline, old(machine.now)) || (Left(deadline, machine.now) == Left(deadline, old(machine.now)) && Running(c) < Running(b))
    ensures Running(b) == 0 && old(machine.now) < deadline && Prompt(machine.plan, old(machine.tick), 2 * MAX_WORKERS + 1) ==> Filled(c, b)
    ensures var k, p := old(machine.tick), machine.plan;
            b == Opening(1) && SaysOneThing(p, k, deadline - old(machine.now)) ==>
              over && machine.tick == k + 6 && HasSaid(c, Signed(At(p, k + 4).message, 0))
  {
    hide Steady, At, Seen, Ran, Adds, Advances, Opening, JustLaunched, HasSaid, LookedAt, Kinds, Alone, Running, Prompt, Filled;
    c, over := b, true;
    NothingAdded(b, Kinds(false));
    ghost var k, p := machine.tick, machine.plan;
    ghost var told := b == Opening(1) && SaysOneThing(p, k, deadline - machine.now);
    ghost var prompt := Running(b) == 0 && machine.now < deadline && Prompt(p, k, 2 * MAX_WORKERS + 1);
    if prompt { PromptAt(p, k, 2 * MAX_WORKERS + 1, k); }
    var t := Time(c, machine, size, around);
    if t < deadline {
      c := Launch(deadline, c, machine, size, around);
      ghost var launched := c;
      if told { LaunchedAlone(c); HearsOne(c, p, k + 3); }
      if prompt { GetsFilled(c, b); }
      ghost var ran := Ran(Seen(machine), around);
      c := AttendAll(c, machine, size, false, around);
      AdvancesAdds(b, launched, c, Kinds(false), ran, Ran(Seen(machine), around));
      StaysFilled(launched, c, b);
      t := Time(c, machine, size, around);
      over := t >= deadline;
      if !over && Running(c) > 0 { Pause(c, machine, size, 10, around); }
    }
  }

  /** As many targets as there are places for have left the queue. */
  ghost predicate Filled(b: Book, start: Book) { b.pending == [] || |b.pending| + MAX_WORKERS <= |start.pending| }

  lemma EmptyIsFilled(start: Book)
    ensures start.pending == [] ==> Filled(start, start)
  {
  }

  lemma GetsFilled(b: Book, start: Book)
    requires Running(start) == 0 && |b.pending| + Running(b) <= |start.pending| + Running(start)
    requires b.pending == [] || Running(b) >= MAX_WORKERS
    ensures Filled(b, start)
  {
  }

  lemma StaysFilled(was: Book, b: Book, start: Book)
    requires |b.pending| <= |was.pending|
    ensures Filled(was, start) ==> Filled(b, start)
  {
  }

  lemma LaunchedAlone(b: Book)
    requires JustLaunched(b)
    ensures Alone(b)
  {
  }

  /** The grace window: what is still running may yet deliver, and only the window's end stops it short. */
  method Drain(start: Book, machine: Machine, size: nat, ghost around: Around) returns (b: Book)
    requires Steady(machine, around, start, size, {})
    modifies machine
    ensures Steady(machine, around, b, size, {}) && old(machine.now) <= machine.now
    ensures Advances(start, b, Kinds(true), old(Ran(Seen(machine), around)), Ran(Seen(machine), around))
    ensures Running(b) == 0 || old(machine.now) + GRACE_MS <= machine.now
    ensures Running(start) == 0 ==> b == start
    ensures Alone(start) && BreaksLate(machine.plan, old(machine.tick) + 1) ==> BrokenOff(b, start)
  {
    ghost var told := Alone(start) && BreaksLate(machine.plan, machine.tick + 1);
    hide Left, Steady, At, Seen, Ran, Advances, Kinds, ToBreak, Struck, BrokenOff, BreaksLate, Alone, Running;
    b := start;
    NothingAdvances(start, Kinds(true), Ran(Seen(machine), around));
    var t := Time(b, machine, size, around);
    var until := t + GRACE_MS;
    StartsToBreak(told, start, machine.plan, machine.tick, machine.now, until);
    while Running(b) > 0
      invariant Steady(machine, around, b, size, {}) && old(machine.now) <= machine.now
      invariant Advances(start, b, Kinds(true), old(Ran(Seen(machine), around)), Ran(Seen(machine), around))
      invariant Running(start) == 0 ==> b == start
      invariant ToBreak(told, b, start, machine.plan, machine.tick, machine.now, until)
      decreases Running(b), Left(until, machine.now)
    {
      ghost var was, ran := b, Ran(Seen(machine), around);
      ghost var tick, now := machine.tick, machine.now;
      var over;
      b, over := DrainOnce(until, b, machine, size, around);
      AdvancesMore(start, was, b, Kinds(true), old(Ran(Seen(machine), around)), ran, Ran(Seen(machine), around));
      StruckOnce(told, was, b, start, over, machine.plan, tick, now, until, machine.tick, machine.now);
      if over { break; }
    }
    BrokenOnce(told, b, start, machine.plan, machine.tick, machine.now, until);
  }

  /** Before the first round everything is as the run of chances has it, after it the worker is lost. */
  ghost predicate ToBreak(told: bool, b: Book, start: Book, plan: nat -> Chance, tick: nat, now: int, until: int) {
    told ==> if Running(b) > 0 then b == start && Alone(start) && BreaksLate(plan, tick) && now + GRACE_MS <= until else BrokenOff(b, start)
  }

  ghost predicate Struck(b: Book, c: Book, over: bool, plan: nat -> Chance, tick: nat, now: int, until: int) {
    Alone(b) && BreaksLate(plan, tick) && now + GRACE_MS <= until ==> !over && Running(c) == 0 && BrokenOff(c, b)
  }

  lemma StartsToBreak(told: bool, start: Book, plan: nat -> Chance, tick: nat, now: int, until: int)
    requires told ==> Alone(start) && BreaksLate(plan, tick) && now + GRACE_MS <= until
    ensures ToBreak(told, start, start, plan, tick, now, until)
  {
    if told { AloneRuns(start); }
  }

  lemma StruckOnce(told: bool, b: Book, c: Book, start: Book, over: bool, plan: nat -> Chance, tick: nat, now: int, until: int, tock: nat, later: int)
    requires Running(b) > 0 && ToBreak(told, b, start, plan, tick, now, until) && Struck(b, c, over, plan, tick, now, until)
    ensures ToBreak(told, c, start, plan, tock, later, until) && (told ==> !over)
  {
  }

  lemma BrokenOnce(told: bool, b: Book, start: Book, plan: nat -> Chance, tick: nat, now: int, until: int)
    requires ToBreak(told, b, start, plan, tick, now, until)
    ensures told && Running(b) == 0 ==> BrokenOff(b, start)
  {
  }

  /** One round of the grace window, unless it is over. */
  method DrainOnce(until: int, b: Book, machine: Machine, size: nat, ghost around: Around) returns (c: Book, over: bool)
    requires Steady(machine, around, b, size, {}) && Running(b) > 0
    modifies machine
    ensures Steady(machine, around, c, size, {}) && old(machine.now) <= machine.now
    ensures Advances(b, c, Kinds(true), old(Ran(Seen(machine), around)), Ran(Seen(machine), around)) && Running(c) <= Running(b)
    ensures over == (old(machine.now) + At(machine.plan, old(machine.tick)).elapsed >= until)
    ensures over ==> c == b && until <= machine.now
    ensures !over && Running(c) == Running(b) ==> Left(until, machine.now) < Left(until, old(machine.now))
    ensures Struck(b, c, over, machine.plan, old(machine.tick), old(machine.now), until)
  {
    hide Steady, At, Seen, Ran, Advances, LookedAt, Kinds, Alone, Running, BreaksLate, BrokenOff;
    c := b;
    NothingAdvances(b, Kinds(true), Ran(Seen(machine), around));
    ghost var k, told := machine.tick, Alone(b) && BreaksLate(machine.plan, machine.tick);
    if told { SteadyAlone(machine, around, b, size); BreaksOne(b, machine.plan, k); }
    var now := Time(b, machine, size, around);
    over := now >= until;
    if !over {
      ghost var ran := Ran(Seen(machine), around);
      c := AttendAll(b, machine, size, true, around);
      AdvancesMore(b, b, c, Kinds(true), ran, ran, Ran(Seen(machine), around));
      if Running(c) > 0 { Pause(c, machine, size, 10, around); }
    }
  }

  /** The only worker was lost in the grace window. */
  ghost predicate BrokenOff(c: Book, b: Book) { 0 < |b.rows| && c == AfterEnd(b, 0, BrokeLate) }

  lemma BreaksOne(b: Book, plan: nat -> Chance, k: nat)
    requires Alone(b) && 0 < |b.rows| && BreaksLate(plan, k)
    ensures At(plan, k).elapsed < GRACE_MS
    ensures var c := LookedAt(b, 0, true, plan, k + 1); BrokenOff(c, b) && Running(c) == 0
  {
    OneKeyLess(b.active, 0);
    assert |b.active| == |b.active.Keys| == |{0}|;
  }

  lemma SteadyAlone(machine: Machine, around: Around, b: Book, size: nat)
    requires Steady(machine, around, b, size, {}) && Alone(b)
    ensures 0 < |b.rows|
  {
    SteadyPipe(machine, around, b, size, {}, 0);
  }

  lemma AloneRuns(b: Book)
    requires Alone(b)
    ensures Running(b) > 0
  {
    assert |b.active| == |b.active.Keys| == |{0}|;
  }

  /** Mark, close and stop whatever is left. */
  method StopAll(start: Book, machine: Machine, size: nat, ghost around: Around) returns (b: Book)
    requires Steady(machine, around, start, size, {})
    modifies machine
    ensures Steady(machine, around, b, size, {}) && old(machine.now) <= machine.now
    ensures Advances(start, b, {Stopped}, old(Ran(Seen(machine), around)), Ran(Seen(machine), around)) && Running(b) == 0
    ensures Running(start) == 0 ==> b == start
  {
    hide Steady, At, Advances, AfterEnd, Ran, Seen, Running;
    b := start;
    NothingAdvances(start, {Stopped}, Ran(Seen(machine), around));
    while Running(b) > 0
      invariant Steady(machine, around, b, size, {}) && old(machine.now) <= machine.now
      invariant Advances(start, b, {Stopped}, old(Ran(Seen(machine), around)), Ran(Seen(machine), around))
      invariant Running(start) == 0 ==> b == start
      decreases Running(b)
    {
      Nonempty(b);
      var i :| i in b.active;
      ghost var was, ran := b, Ran(Seen(machine), around);
      b := Retire(b, machine, size, i, Stopped, around, {});
      EndAdds(was, i, Stopped, ran);
      AdvancesMore(start, was, b, {Stopped}, old(Ran(Seen(machine), around)), ran, ran);
    }
  }

  lemma EndAdds(b: Book, i: nat, end: End, ran: seq<Incident>)
    requires i < |b.rows| && i !in b.ends
    ensures var c := AfterEnd(b, i, end); Advances(b, c, {end}, ran, ran) && (i in b.active ==> Running(c) == Running(b) - 1)
  {
    if i in b.active { OneKeyLess(b.active, i); }
  }

  /** What is still queued was never looked at in time. */
  method MarkPending(b: Book, size: nat) returns (rows: seq<Row>)
    requires BookOk(b, size)
    ensures |rows| == size
    ensures forall i: nat :: i < b.started ==> rows[i] == b.rows[i]
    ensures forall i: nat :: b.started <= i < size ==> rows[i] == Row(i, None, Some(DeadlinePassed))
  {
    hide Partitioned;
    rows := b.rows;
    for k := 0 to |b.pending|
      invariant |rows| == size
      invariant forall i: nat :: i < b.started ==> rows[i] == b.rows[i]
      invariant forall i: nat :: b.started <= i < b.started + k ==> rows[i] == Row(i, None, Some(DeadlinePassed))
      invariant forall i: nat :: b.started + k <= i < size ==> rows[i] == Row(i, None, Some(NotObserved))
    {
      var i := b.pending[k];
      rows := rows[i := rows[i].(error := Some(DeadlinePassed))];
    }
  }

  /** How long collecting may go on: the budget, at most four seconds, less a quarter for cleaning up. */
  function Allowance(budgetMs: int): nat {
    var budget := if budgetMs < 4000 then budgetMs else 4000;
    if budget > 250 then budget - 250 else 0
  }

  /** What an end says about what was run into, while collecting and in the grace window. */
  ghost predicate Answers(end: End, i: nat, completed: bool, during: seq<Incident>, after: seq<Incident>) {
    && (end.NotStarted? ==> multiset(during)[StartFailed(i)] >= 3)
    && (end.Gone? <==> Lost(during, i))
    && (end.BrokeLate? <==> !Lost(during, i) && HungUp(i) in after)
    && (end.SaidLast? ==> completed)
  }

  /** The ends reached by the time the grace window opened fix the rest. */
  lemma EndsAnswer(size: nat, mid: Book, during: seq<Incident>, late: Book, b: Book, after: seq<Incident>)
    requires Founded(mid, during, {}) && Adds(Opening(size), mid, Kinds(false))
    requires Adds(mid, late, Kinds(true)) && Adds(late, b, {Stopped}) && Founded(b, during + after, {})
    ensures forall i :: i in b.ends ==> Answers(b.ends[i], i, i in b.completed, during, after)
  {
    forall i | i in b.ends ensures Answers(b.ends[i], i, i in b.completed, during, after) {
      EndAnswers(size, mid, during, late, b, after, i);
    }
  }

  lemma EndAnswers(size: nat, mid: Book, during: seq<Incident>, late: Book, b: Book, after: seq<Incident>, i: nat)
    requires Founded(mid, during, {}) && Adds(Opening(size), mid, Kinds(false))
    requires Adds(mid, late, Kinds(true)) && Adds(late, b, {Stopped}) && Founded(b, during + after, {})
    requires i in b.ends
    ensures Answers(b.ends[i], i, i in b.completed, during, after)
  {
    FailuresCount(during, after, i);
    assert Witnessed(b.ends[i], i, i in b.completed, during + after);
    if i in mid.ends {
      assert EndOf(late, i) == EndOf(mid, i) && EndOf(b, i) == EndOf(late, i);
      assert Witnessed(mid.ends[i], i, i in mid.completed, during);
    } else if i in late.ends {
      assert EndOf(b, i) == EndOf(late, i);
    }
  }

  ghost predicate RowsDeliver(rows: seq<Row>, b: Book, heard: seq<Message>) {
    forall i: nat :: i < b.started && i < |rows| ==> RowTells(rows[i], i, i in b.completed, EndOf(b, i), heard)
  }

  lemma EmptyInventory(heard: seq<Message>)
    ensures RowsDeliver([], Opening(0), heard) && Opening(0) == Book([], [], map[], {}, 0, map[]) && Before(0) == {}
    ensures forall kinds :: !Ended(Opening(0), kinds)
  {
  }

  lemma OpeningHeld(machine: Machine, around: Around, size: nat)
    requires machine.Valid() && around.outside == machine.open && around.base == machine.live
    requires around.mark == |machine.heard| && around.since == |machine.incidents|
    requires machine.busiest <= around.ceiling && around.base + MAX_WORKERS <= around.ceiling
    ensures Steady(machine, around, Opening(size), size, {})
  {
    OpeningOk(size);
    NothingHeardYet(size);
    assert Told(Seen(machine), around) == [] && Ran(Seen(machine), around) == [];
  }

  lemma NothingHeld(machine: Machine, around: Around, b: Book, size: nat)
    requires Steady(machine, around, b, size, {}) && Running(b) == 0
    ensures b.active == map[] && |b.pending| + b.started == size && b.ends.Keys == Before(b.started)
    ensures machine.Valid() && machine.open == around.outside && machine.live == around.base && machine.busiest <= around.ceiling
    ensures around.mark <= |machine.heard| && Delivered(b, machine.heard[around.mark..])
    ensures around.since <= |machine.incidents| && Ran(Seen(machine), around) == machine.incidents[around.since..]
    ensures |b.rows| == size && forall i: nat :: i < size ==> b.rows[i].target == i
  {
    assert b.active == map[];
    hide Delivered, Founded;
    assert b.ends.Keys == Before(b.started);
  }

  lemma FilledFromOpening(b: Book, size: nat)
    requires |b.pending| + b.started == size
    ensures Filled(b, Opening(size)) ==> b.started >= if size < MAX_WORKERS then size else MAX_WORKERS
  {
  }

  lemma SettledRowsTell(b: Book, rows: seq<Row>, size: nat, heard: seq<Message>)
    requires Delivered(b, heard) && |b.rows| == |rows| == size && b.started <= size
    requires forall i: nat :: i < b.started ==> rows[i] == b.rows[i]
    requires forall i: nat :: i < size ==> b.rows[i].target == i
    requires forall i: nat :: b.started <= i < size ==> rows[i].target == i
    ensures RowsDeliver(rows, b, heard)
    ensures forall i: nat :: i < size ==> rows[i].target == i
  {
    hide RowTells;
  }

  /** Whether any target ended in one of these ways. */
  ghost predicate Ended(b: Book, kinds: set<End>) { exists i :: i in b.ends && b.ends[i] in kinds }

  lemma EndedLater(b: Book, c: Book, kinds: set<End>, others: set<End>)
    requires Adds(b, c, kinds) && kinds !! others
    ensures Ended(c, others) ==> Ended(b, others)
  {
    if i :| i in c.ends && c.ends[i] in others {
      assert i in b.ends ==> EndOf(c, i) == EndOf(b, i);
    }
  }

  lemma OpeningEnds(size: nat, kinds: set<End>)
    ensures !Ended(Opening(size), kinds)
  {
  }

  lemma SaidAlone(b: Book, m: Option<Message>)
    requires HasSaid(b, m)
    ensures Alone(b)
  {
  }

  lemma BreaksUnheard(b: Book, c: Book, m: Option<Message>)
    requires HasSaid(b, m) && BrokenOff(c, b)
    ensures HasEnded(c, m)
  {
  }

  /** Chances under which the only worker says one thing and then breaks off in the grace window. */
  ghost predicate BreaksOff(plan: nat -> Chance, k: nat, budgetMs: int) {
    SaysOneThing(plan, k + 1, Allowance(budgetMs)) && BreaksLate(plan, k + 8)
  }

  /** What is done however collecting went: drain, stop and mark, in that order. `late` and `closed` say how things stood when the grace window closed. */
  method WindUp(start: Book, machine: Machine, size: nat, ghost around: Around)
      returns (rows: seq<Row>, b: Book, ghost late: Book, ghost closed: seq<Incident>)
    requires Steady(machine, around, start, size, {})
    modifies machine
    ensures Steady(machine, around, b, size, {}) && Running(b) == 0 && old(machine.now) <= machine.now
    ensures Advances(start, late, Kinds(true), old(Ran(Seen(machine), around)), closed) && Advances(late, b, {Stopped}, closed, Ran(Seen(machine), around))
    ensures Running(start) == 0 ==> start == late == b
    ensures late == b || old(machine.now) + GRACE_MS <= machine.now
    ensures Alone(start) && BreaksLate(machine.plan, old(machine.tick) + 1) ==> BrokenOff(b, start)
    ensures |rows| == size
    ensures forall i: nat :: i < b.started ==> rows[i] == b.rows[i]
    ensures forall i: nat :: b.started <= i < size ==> rows[i] == Row(i, None, Some(DeadlinePassed))
  {
    hide Steady, BookOk, Ran, Seen, Advances, Kinds, BreaksLate, BrokenOff, Alone, Running, Founded;
    b := Drain(start, machine, size, around);
    late, closed := b, Ran(Seen(machine), around);
    b := StopAll(b, machine, size, around);
    BreaksAlone(start, late);
    SteadyBook(machine, around, b, size);
    rows := MarkPending(b, size);
  }

  lemma BreaksAlone(b: Book, c: Book)
    ensures Alone(b) && BrokenOff(c, b) ==> Running(c) == 0
  {
    if Alone(b) && BrokenOff(c, b) {
      OneKeyLess(b.active, 0);
      assert |b.active| == |b.active.Keys| == |{0}|;
    }
  }

  /** Collect, drain, stop and mark, in that order; `grace` incidents came before the grace window. */
  method Gather(size: nat, machine: Machine, budgetMs: int, ghost around: Around) returns (rows: seq<Row>, ghost b: Book, ghost grace: nat)
    requires Steady(machine, around, Opening(size), size, {})
    modifies machine
    ensures Steady(machine, around, b, size, {}) && Running(b) == 0
    ensures |rows| == size
    ensures forall i: nat :: i < b.started ==> rows[i] == b.rows[i]
    ensures forall i: nat :: b.started <= i < size ==> rows[i] == Row(i, None, Some(DeadlinePassed))
    ensures var ran := Ran(Seen(machine), around);
            grace <= |ran| && forall i :: i in b.ends ==> Answers(b.ends[i], i, i in b.completed, ran[..grace], ran[grace..])
    ensures b.pending != [] || Ended(b, {SaidLast, BrokeLate, Stopped}) ==> old(machine.now) + Allowance(budgetMs) <= machine.now
    ensures Ended(b, {Stopped}) ==> old(machine.now) + Allowance(budgetMs) + GRACE_MS <= machine.now
    ensures Allowance(budgetMs) > 0 && Prompt(machine.plan, old(machine.tick) + 1, 2 * MAX_WORKERS + 1) ==>
              Filled(b, Opening(size))
    ensures size == 1 && BreaksOff(machine.plan, old(machine.tick), budgetMs) ==>
              HasEnded(b, Signed(At(machine.plan, old(machine.tick) + 5).message, 0)) && rows == b.rows
  {
    hide Opening, Steady, BookOk, Allowance, Adds, Advances, Ended, Ran, Seen, Answers, SaysOneThing, BreaksLate, BreaksOff, HasSaid, HasEnded,
         BrokenOff, AfterEnd, Founded, Kinds, At, Alone, Running, Prompt, Filled;
    OpeningIsWaiting(size);
    ghost var said := Signed(At(machine.plan, machine.tick + 5).message, 0);
    ghost var told := size == 1 && BreaksOff(machine.plan, machine.tick, budgetMs);
    if told { BreaksOffIs(machine.plan, machine.tick, budgetMs); }
    var t := Time(Opening(size), machine, size, around);
    var deadline := t + Allowance(budgetMs);
    var book := CollectUntil(deadline, Opening(size), machine, size, around);
    ghost var mid, during := book, Ran(Seen(machine), around);
    SteadyBook(machine, around, mid, size);
    if told { SaidAlone(mid, said); }
    ghost var late, closed;
    rows, book, late, closed := WindUp(book, machine, size, around);
    if told { BreaksUnheard(mid, book, said); }
    SteadyBook(machine, around, book, size);
    b, grace := book, |during|;
    GatherEnds(size, mid, during, late, closed, b, Ran(Seen(machine), around));
  }

  ghost predicate HasEnded(b: Book, m: Option<Message>) {
    m.Some? && b.rows == [m.value.row] && b.completed == {} && b.ends == map[0 := BrokeLate] && b.started == 1
  }

  lemma BreaksOffIs(plan: nat -> Chance, k: nat, budgetMs: int)
    requires BreaksOff(plan, k, budgetMs)
    ensures SaysOneThing(plan, k + 1, Allowance(budgetMs)) && BreaksLate(plan, k + 8)
  {
  }

  lemma EndsInTime(size: nat, mid: Book, late: Book, b: Book)
    requires Adds(Opening(size), mid, Kinds(false)) && Adds(mid, late, Kinds(true)) && Adds(late, b, {Stopped})
    ensures mid == late == b ==> !Ended(b, {SaidLast, BrokeLate, Stopped})
    ensures late == b ==> !Ended(b, {Stopped})
  {
    OpeningEnds(size, {SaidLast, BrokeLate, Stopped});
    OpeningEnds(size, {Stopped});
    hide Opening, Adds, Ended;
    EndedLater(Opening(size), mid, Kinds(false), {SaidLast, BrokeLate, Stopped});
    EndedLater(Opening(size), mid, Kinds(false), {Stopped});
    EndedLater(mid, late, Kinds(true), {Stopped});
  }

  /** What collecting, draining and stopping add up to. */
  lemma GatherEnds(size: nat, mid: Book, during: seq<Incident>, late: Book, sofar: seq<Incident>, b: Book, ran: seq<Incident>)
    requires Adds(Opening(size), mid, Kinds(false)) && Advances(mid, late, Kinds(true), during, sofar) && Advances(late, b, {Stopped}, sofar, ran)
    requires Founded(mid, during, {}) && Founded(b, ran, {})
    ensures b.pending == mid.pending && |during| <= |ran| && (Filled(mid, Opening(size)) ==> Filled(b, Opening(size)))
    ensures forall i :: i in b.ends ==> Answers(b.ends[i], i, i in b.completed, ran[..|during|], ran[|during|..])
    ensures mid == late == b ==> !Ended(b, {SaidLast, BrokeLate, Stopped})
    ensures late == b ==> !Ended(b, {Stopped})
  {
    hide Opening, Adds, Founded, Answers, Ended, Kinds;
    var after := ran[|during|..];
    assert ran == during + after && ran[..|during|] == during;
    EndsAnswer(size, mid, during, late, b, after);
    EndsInTime(size, mid, late, b);
  }

  lemma SteadyBook(machine: Machine, around: Around, b: Book, size: nat)
    requires Steady(machine, around, b, size, {})
    ensures BookOk(b, size) && |b.rows| == size && b.started <= size && Founded(b, Ran(Seen(machine), around), {})
  {
  }

  /**
   * The collection. Row i always describes target i. Every target is still
   * pending or its work has ended in one of five ways: a pending one's row is
   * untouched but for the deadline error, any other carries what its worker
   * last sent and the mark its end leaves. The ends are pinned to what was run
   * into: `ran[..grace]` came while collecting and `ran[grace..]` after. Nothing
   * stays pending before the deadline, and nothing is stopped before the grace
   * window is over. Never more than four workers run, each is seen off, and
   * every pipe end opened is closed.
   */
  method Collect(size: nat, machine: Machine, budgetMs: int) returns (rows: seq<Row>, ghost b: Book, ghost grace: nat)
    requires machine.Valid()
    modifies machine
    ensures machine.Valid() && machine.open == old(machine.open) && machine.live == old(machine.live)
    ensures machine.busiest <= old(machine.busiest) || machine.busiest <= old(machine.live) + MAX_WORKERS
    ensures |rows| == size && (forall i: nat :: i < size ==> rows[i].target == i)
    ensures b.active == map[] && |b.pending| + b.started == size && b.ends.Keys == Before(b.started)
    ensures forall i: nat :: b.started <= i < size ==> rows[i] == Row(i, None, Some(DeadlinePassed))
    ensures |old(machine.heard)| <= |machine.heard| && RowsDeliver(rows, b, machine.heard[|old(machine.heard)|..])
    ensures |old(machine.incidents)| <= |machine.incidents|
    ensures var ran := machine.incidents[|old(machine.incidents)|..];
            grace <= |ran| && forall i :: i in b.ends ==> Answers(b.ends[i], i, i in b.completed, ran[..grace], ran[grace..])
    ensures b.pending != [] || Ended(b, {SaidLast, BrokeLate, Stopped}) ==> old(machine.now) + Allowance(budgetMs) <= machine.now
    ensures Ended(b, {Stopped}) ==> old(machine.now) + Allowance(budgetMs) + GRACE_MS <= machine.now
    ensures Allowance(budgetMs) > 0 && Prompt(machine.plan, old(machine.tick) + 1, 2 * MAX_WORKERS + 1) ==>
              b.started >= if size < MAX_WORKERS then size else MAX_WORKERS
    ensures size == 1 && BreaksOff(machine.plan, old(machine.tick), budgetMs) ==>
              HasEnded(b, Signed(At(machine.plan, old(machine.tick) + 5).message, 0)) && rows == b.rows
  {
    hide Before, Opening, Steady, RowsDeliver, Delivered, Allowance, Answers, Ended, BreaksOff, HasEnded, Prompt, Filled;
    if size == 0 {
      EmptyInventory(machine.heard[|machine.heard|..]);
      return [], Opening(0), 0;
    }
    ghost var ceiling := if machine.busiest > machine.live + MAX_WORKERS then machine.busiest else machine.live + MAX_WORKERS;
    ghost var around := Around(machine.open, machine.live, ceiling, |machine.heard|, |machine.incidents|);
    OpeningHeld(machine, around, size);
    rows, b, grace := Gather(size, machine, budgetMs, around);
    NothingHeld(machine, around, b, size);
    FilledFromOpening(b, size);
    SettledRowsTell(b, rows, size, machine.heard[around.mark..]);
  }

  /**
   * When a row whose last word never came says nothing of it: exactly when its
   * worker's pipe hung up in the grace window, and not before, after a message
   * that carried no error.
   */
  lemma SilentExactlyWhenBrokenLate(row: Row, i: nat, end: End, heard: seq<Message>, during: seq<Incident>, after: seq<Incident>)
    requires RowTells(row, i, false, Some(end), heard) && AlwaysNamed(heard, i)
    requires Answers(end, i, false, during, after)
    ensures row.error.None? <==>
              && !Lost(during, i) && HungUp(i) in after
              && Latest(heard, i).Some? && Latest(heard, i).value.error.None?
  {
    hide Latest, Lost, LastWordHeard, AlwaysNamed;
    assert !end.SaidLast?;
  }

  /** The worker sends the cached row it starts from, the deadline passes, and then its pipe is broken; nothing else goes wrong. */
  function BreakOffPlan(cached: Snapshot): nat -> Chance {
    (k: nat) => Chance(if k == 6 then 4000 else 0, true, if k == 5 then Some(Message(false, true, Row(0, Some(cached), None))) else None)
  }

  lemma BreakOffPlanBreaksOff(cached: Snapshot)
    ensures BreaksOff(BreakOffPlan(cached), 0, 4000)
    ensures Signed(At(BreakOffPlan(cached), 5).message, 0) == Some(Message(false, true, Row(0, Some(cached), None)))
  {
  }

  lemma NoLastWord(rows: seq<Row>, b: Book, m: Option<Message>, heard: seq<Message>)
    requires RowsDeliver(rows, b, heard) && HasEnded(b, m) && rows == b.rows
    ensures m.Some? && rows == [m.value.row] && !LastWordHeard(heard, 0)
  {
    assert RowTells(rows[0], 0, 0 in b.completed, EndOf(b, 0), heard);
  }

  /** A run that leaves such a row: the worker never said its last word, and its row shows no error. */
  method CollectUnfinished(cached: Snapshot) returns (machine: Machine, rows: seq<Row>)
    ensures fresh(machine) && machine.plan == BreakOffPlan(cached)
    ensures rows == [Row(0, Some(cached), None)] && !LastWordHeard(machine.heard, 0)
  {
    BreakOffPlanBreaksOff(cached);
    hide BreakOffPlan, BreaksOff, RowsDeliver, HasEnded, LastWordHeard, Answers, Ended, At, Signed;
    machine := new Machine(BreakOffPlan(cached), 0);
    ghost var b, grace;
    rows, b, grace := Collect(1, machine, 4000);
    assert machine.heard[0..] == machine.heard;
    NoLastWord(rows, b, Signed(At(BreakOffPlan(cached), 5).message, 0), machine.heard);
  }
}
