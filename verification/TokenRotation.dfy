/**
 * Single-use refresh tokens shared by any number of concurrent refreshers.
 *
 * One credential file, one authorization server that rotates on every grant
 * (section 6 of RFC 6749), and an unbounded number of refresh calls. Every call
 * is a small automaton; a run is any sequence of events, and an event that is
 * not enabled changes nothing, so a statement about `Run` covers every
 * interleaving and every fault.
 *
 * Refresh tokens are numbered by generation. The server's current one is the
 * number of grants it has made, so `grants[g]` is the call that rotated
 * generation g away.
 */
module TokenRotation {
  import opened Wrappers

  type Call = nat
  type Generation = int

  /** What the credential file holds, as far as this module reads and writes it. */
  datatype Disk =
    | Missing
    | Corrupt
    | NoBlock
    | Block(access: Option<Generation>, refresh: Option<Generation>)

  datatype Outcome = Success | Rejected | Transport | BadResponse | NoRefreshToken | MissingFile | Crashed

  /** The server's answer while it is on its way back. */
  datatype Reply = Granted(minted: Generation) | Refused | Unevaluated

  datatype Delivery = Arrives | Lost | Unusable

  datatype Phase =
    | NotStarted
    | Holding(token: Generation)
    | Awaiting(reply: Reply)
    | Minted(gen: Generation)
    | Loaded(gen: Generation, doc: Disk)
    | Staged(gen: Generation)
    | Reconsider
    | Finished(outcome: Outcome)

  /** `sent` lists the tokens the call has POSTed, in order. */
  datatype Client = Client(phase: Phase, sent: seq<Generation>)

  /**
   * `temp` is the one shared `.tmp` sibling; `lost` records that the current
   * token was dropped by a fault and nobody holds it any more.
   */
  datatype World = World(disk: Disk, temp: Disk, grants: seq<Call>, clients: map<Call, Client>, lost: bool)

  datatype Event =
    | Read(call: Call)
    | Post(call: Call, evaluated: bool)
    | Receive(call: Call, delivery: Delivery)
    | Load(call: Call)
    | Stage(call: Call)
    | Rename(call: Call)
    | PersistFails(call: Call)
    | Crash(call: Call)

  const IDLE := Client(NotStarted, [])

  function Of(w: World, c: Call): Client {
    if c in w.clients then w.clients[c] else IDLE
  }

  function LastSent(me: Client): Generation
    requires me.sent != []
  {
    me.sent[|me.sent| - 1]
  }

  function Current(w: World): Generation { |w.grants| }

  function Stored(d: Disk): Option<Generation> {
    if d.Block? then d.refresh else None
  }

  /** The generation a call has been granted and has not finished writing. */
  function Held(p: Phase): Option<Generation> {
    match p
    case Awaiting(Granted(g)) => Some(g)
    case Minted(g) => Some(g)
    case Loaded(g, _) => Some(g)
    case Staged(g) => Some(g)
    case _ => None
  }

  function Move(w: World, c: Call, p: Phase): World {
    w.(clients := w.clients[c := Of(w, c).(phase := p)])
  }

  /** A call leaves the protocol; a token it still held goes with it. */
  function Finish(w: World, c: Call, o: Outcome): World {
    var held := Held(Of(w, c).phase).Some?;
    Move(w, c, Finished(o)).(lost := w.lost || held)
  }

  /** First read: no file, no token, or a token to send. Re-read: only a changed token is worth a second POST. */
  function AfterRead(w: World, c: Call): World {
    var me := Of(w, c);
    match me.phase
    case NotStarted =>
      if w.disk.Missing? then Finish(w, c, MissingFile)
      else if Stored(w.disk).None? then Finish(w, c, NoRefreshToken)
      else Move(w, c, Holding(Stored(w.disk).value))
    case Reconsider =>
      if Stored(w.disk).Some? && me.sent != [] && Stored(w.disk).value != LastSent(me) then Move(w, c, Holding(Stored(w.disk).value))
      else Finish(w, c, Rejected)
    case _ => w
  }

  /** The server rotates exactly when the token it is shown is its current one. */
  function AfterPost(w: World, c: Call, evaluated: bool): World {
    var me := Of(w, c);
    if !me.phase.Holding? then w
    else
      var granted := evaluated && me.phase.token == Current(w);
      var grants := if granted then w.grants + [c] else w.grants;
      var reply := if granted then Granted(|grants|) else if evaluated then Refused else Unevaluated;
      w.(grants := grants, clients := w.clients[c := Client(Awaiting(reply), me.sent + [me.phase.token])])
  }

  function AfterReceive(w: World, c: Call, delivery: Delivery): World {
    var me := Of(w, c);
    if !me.phase.Awaiting? then w
    else
      match (me.phase.reply, delivery)
      case (Granted(g), Arrives) => Move(w, c, Minted(g))
      case (Granted(_), Unusable) => Finish(w, c, BadResponse)
      case (Refused, Arrives) => if |me.sent| == 1 then Move(w, c, Reconsider) else Finish(w, c, Rejected)
      case _ => Finish(w, c, Transport)
  }

  /** Open, lock and parse: what cannot be parsed is given up on, silently. */
  function AfterLoad(w: World, c: Call): World {
    var p := Of(w, c).phase;
    if !p.Minted? then w
    else if w.disk.Missing? || w.disk.Corrupt? then Finish(w, c, Success)
    else Move(w, c, Loaded(p.gen, w.disk))
  }

  function AfterStage(w: World, c: Call): World {
    var p := Of(w, c).phase;
    if p.Loaded? then Move(w, c, Staged(p.gen)).(temp := Block(Some(p.gen), Some(p.gen))) else w
  }

  /** Whatever the shared temporary holds becomes the credential file. */
  function AfterRename(w: World, c: Call): World {
    if Of(w, c).phase.Staged? then Move(w, c, Finished(Success)).(disk := w.temp, temp := Missing) else w
  }

  function Apply(w: World, e: Event): World {
    match e
    case Read(c) => AfterRead(w, c)
    case Post(c, evaluated) => AfterPost(w, c, evaluated)
    case Receive(c, delivery) => AfterReceive(w, c, delivery)
    case Load(c) => AfterLoad(w, c)
    case Stage(c) => AfterStage(w, c)
    case Rename(c) => AfterRename(w, c)
    case PersistFails(c) =>
      var p := Of(w, c).phase;
      if p.Minted? || p.Loaded? || p.Staged? then Finish(w, c, Success) else w
    case Crash(c) =>
      if Of(w, c).phase.Finished? then w else Finish(w, c, Crashed)
  }

  function Run(w: World, events: seq<Event>): World {
    if events == [] then w else Apply(Run(w, events[..|events| - 1]), events[|events| - 1])
  }

  /** Nobody has started; the server's current token is 0, and the file may hold it, an older one or none. */
  ghost predicate Initial(w: World) {
    && w.grants == []
    && w.clients == map[]
    && (Stored(w.disk).Some? ==> Stored(w.disk).value <= 0)
    && (w.lost <==> Stored(w.disk) != Some(0))
  }

  /** The current token has been granted to the last grantee, which is still carrying it. */
  predicate Pending(w: World) {
    |w.grants| > 0 && Held(Of(w, w.grants[|w.grants| - 1]).phase).Some?
  }

  predicate OnDisk(w: World) { Stored(w.disk) == Some(Current(w)) }

  // ---- The invariant ------------------------------------------------------

  /** Phases of a call whose token the server has not accepted. */
  predicate Ungranted(p: Phase) {
    p.NotStarted? || p.Holding? || p.Reconsider? || p == Awaiting(Refused) || p == Awaiting(Unevaluated) || p == Finished(Rejected)
  }

  ghost predicate ClientOk(w: World, c: Call) {
    var p := Of(w, c).phase;
    && (Held(p).Some? ==> Held(p).value == Current(w) && |w.grants| > 0 && w.grants[|w.grants| - 1] == c)
    && (p.Holding? ==> p.token <= Current(w) && (OnDisk(w) || p.token < Current(w)) && w.disk.Block?)
    && (Ungranted(p) ==> c !in w.grants)
    && (p.Staged? ==> w.temp == Block(Some(p.gen), Some(p.gen)))
  }

  ghost predicate CallOk(w: World, me: Client) {
    && |me.sent| <= 2
    && (|me.sent| == 2 ==> me.sent[0] < me.sent[1])
    && (me.phase.NotStarted? ==> me.sent == [])
    && (me.phase.Holding? ==> |me.sent| <= 1)
    && (me.phase.Holding? && me.sent != [] ==> me.sent[0] < me.phase.token)
    && (me.phase.Awaiting? ==> me.sent != [])
    && (me.phase.Reconsider? ==> |me.sent| == 1)
    && (me.phase.Awaiting? || me.phase.Reconsider? ==> Stored(w.disk).Some? && LastSent(me) <= Stored(w.disk).value)
    && (me.phase.Holding? ==> Stored(w.disk).Some? && me.phase.token <= Stored(w.disk).value)
    && (me.phase == Awaiting(Refused) || me.phase.Reconsider? || me.phase == Finished(Rejected) ==>
          me.sent != [] && LastSent(me) < Current(w))
  }

  ghost predicate FileOk(w: World) {
    && (Stored(w.disk).Some? ==> Stored(w.disk).value <= Current(w))
    && (w.grants != [] ==> w.disk.Block? && w.disk.refresh.Some?)
    && (Stored(w.disk).Some? && Stored(w.disk).value > 0 ==> w.disk.access == w.disk.refresh)
    && (OnDisk(w) <==> !Pending(w) && !w.lost)
    && !(Pending(w) && w.lost)
  }

  ghost predicate Inv(w: World) {
    && FileOk(w)
    && (forall c: Call :: ClientOk(w, c) && CallOk(w, Of(w, c)))
  }

  lemma InitialInv(w: World)
    requires Initial(w)
    ensures Inv(w)
  {
  }

  /** A step of one call that leaves file, temporary and server alone disturbs no other call. */
  lemma OthersUndisturbed(w: World, v: World, c: Call)
    requires Inv(w)
    requires v.disk == w.disk && v.temp == w.temp && v.grants == w.grants
    requires v.clients == w.clients[c := Of(v, c)]
    requires ClientOk(v, c) && CallOk(v, Of(v, c))
    ensures forall d: Call :: ClientOk(v, d) && CallOk(v, Of(v, d))
  {
    forall d: Call ensures ClientOk(v, d) && CallOk(v, Of(v, d)) {
      if d != c {
        assert Of(v, d) == Of(w, d);
        assert ClientOk(w, d) && CallOk(w, Of(w, d));
      }
    }
  }

  /** A call that moves without gaining or dropping a token. */
  lemma MoveKeepsInv(w: World, c: Call, p: Phase)
    requires Inv(w) && Held(p) == Held(Of(w, c).phase)
    requires ClientOk(Move(w, c, p), c) && CallOk(w, Of(Move(w, c, p), c))
    ensures Inv(Move(w, c, p))
  {
    OthersUndisturbed(w, Move(w, c, p), c);
  }

  lemma FinishKeepsInv(w: World, c: Call, o: Outcome)
    requires Inv(w)
    requires o == Rejected ==> c !in w.grants && Of(w, c).sent != [] && LastSent(Of(w, c)) < Current(w)
    ensures Inv(Finish(w, c, o))
  {
    assert ClientOk(w, c) && CallOk(w, Of(w, c));
    OthersUndisturbed(w, Finish(w, c, o), c);
  }

  lemma PostKeepsInv(w: World, c: Call, evaluated: bool)
    requires Inv(w)
    ensures Inv(AfterPost(w, c, evaluated))
  {
    var me := Of(w, c);
    var v := AfterPost(w, c, evaluated);
    assert ClientOk(w, c) && CallOk(w, me);
    forall d: Call | d != c ensures ClientOk(v, d) && CallOk(v, Of(v, d)) {
      assert Of(v, d) == Of(w, d);
      assert ClientOk(w, d) && CallOk(w, Of(w, d));
      if me.phase.Holding? && OnDisk(w) {
        assert Held(Of(w, d).phase).None?;
      }
    }
    assert ClientOk(v, c) && CallOk(v, Of(v, c));
  }

  lemma RenameKeepsInv(w: World, c: Call)
    requires Inv(w)
    ensures Inv(AfterRename(w, c))
  {
    var v := AfterRename(w, c);
    assert ClientOk(w, c) && CallOk(w, Of(w, c));
    forall d: Call ensures ClientOk(v, d) && CallOk(v, Of(v, d)) {
      assert ClientOk(w, d) && CallOk(w, Of(w, d));
    }
  }

  lemma StageKeepsInv(w: World, c: Call)
    requires Inv(w)
    ensures Inv(AfterStage(w, c))
  {
    var v := AfterStage(w, c);
    assert ClientOk(w, c) && CallOk(w, Of(w, c));
    forall d: Call ensures ClientOk(v, d) && CallOk(v, Of(v, d)) {
      assert ClientOk(w, d) && CallOk(w, Of(w, d));
    }
  }

  /** A call that has been granted nothing may take up what it reads from the file. */
  lemma TakeUpKeepsInv(w: World, c: Call, p: Phase)
    requires Inv(w) && p.Holding? && Stored(w.disk) == Some(p.token)
    ensures var me := Of(w, c);
            me.phase.NotStarted? || (me.phase.Reconsider? && LastSent(me) != p.token) ==> Inv(Move(w, c, p))
  {
    var me := Of(w, c);
    if me.phase.NotStarted? || (me.phase.Reconsider? && LastSent(me) != p.token) {
      assert ClientOk(w, c) && CallOk(w, Of(w, c));
      MoveKeepsInv(w, c, p);
    }
  }

  lemma ReadKeepsInv(w: World, c: Call)
    requires Inv(w)
    ensures Inv(AfterRead(w, c))
  {
    assert ClientOk(w, c) && CallOk(w, Of(w, c));
    if Stored(w.disk).Some? { TakeUpKeepsInv(w, c, Holding(Stored(w.disk).value)); }
    FinishKeepsInv(w, c, MissingFile);
    FinishKeepsInv(w, c, NoRefreshToken);
    if Of(w, c).phase.Reconsider? { FinishKeepsInv(w, c, Rejected); }
  }

  lemma ReceiveKeepsInv(w: World, c: Call, delivery: Delivery)
    requires Inv(w)
    ensures Inv(AfterReceive(w, c, delivery))
  {
    var me := Of(w, c);
    assert ClientOk(w, c) && CallOk(w, me);
    hide FileOk;
    FinishKeepsInv(w, c, Transport);
    FinishKeepsInv(w, c, BadResponse);
    if me.phase.Awaiting? && me.phase.reply.Granted? {
      MoveKeepsInv(w, c, Minted(me.phase.reply.minted));
    } else if me.phase == Awaiting(Refused) {
      if |me.sent| == 1 { MoveKeepsInv(w, c, Reconsider); } else { FinishKeepsInv(w, c, Rejected); }
    }
  }

  lemma LoadKeepsInv(w: World, c: Call)
    requires Inv(w)
    ensures Inv(AfterLoad(w, c))
  {
    var p := Of(w, c).phase;
    assert ClientOk(w, c) && CallOk(w, Of(w, c));
    FinishKeepsInv(w, c, Success);
    if p.Minted? { MoveKeepsInv(w, c, Loaded(p.gen, w.disk)); }
  }

  lemma StepKeepsInv(w: World, e: Event)
    requires Inv(w)
    ensures Inv(Apply(w, e))
  {
    match e
    case Read(c) => ReadKeepsInv(w, c);
    case Post(c, evaluated) => PostKeepsInv(w, c, evaluated);
    case Receive(c, delivery) => ReceiveKeepsInv(w, c, delivery);
    case Load(c) => LoadKeepsInv(w, c);
    case Stage(c) => StageKeepsInv(w, c);
    case Rename(c) => RenameKeepsInv(w, c);
    case PersistFails(c) => FinishKeepsInv(w, c, Success);
    case Crash(c) => FinishKeepsInv(w, c, Crashed);
  }

  lemma {:induction false} RunKeepsInv(w: World, events: seq<Event>)
    requires Inv(w)
    ensures Inv(Run(w, events))
    decreases |events|
  {
    if events != [] {
      RunKeepsInv(w, events[..|events| - 1]);
      StepKeepsInv(Run(w, events[..|events| - 1]), events[|events| - 1]);
    }
  }

  // ---- What holds in every run --------------------------------------------

  lemma {:induction false} RunAppend(w: World, a: seq<Event>, b: seq<Event>)
    ensures Run(w, a + b) == Run(Run(w, a), b)
    decreases |b|
  {
    if b == [] {
      assert a + b == a;
    } else {
      var last := |b| - 1;
      RunAppend(w, a, b[..last]);
      assert (a + b)[..|a + b| - 1] == a + b[..last];
    }
  }

  /**
   * The server's current refresh token is on disk, or carried by exactly the
   * call it was granted to, or lost: never two of these and never two carriers,
   * so two calls are never in the persist section together.
   */
  lemma CurrentTokenHasOneKeeper(start: World, events: seq<Event>)
    requires Initial(start)
    ensures var w := Run(start, events);
            && (OnDisk(w) || Pending(w) || w.lost)
            && !(OnDisk(w) && Pending(w)) && !(OnDisk(w) && w.lost) && !(Pending(w) && w.lost)
            && (forall c: Call :: Held(Of(w, c).phase).Some? ==>
                  Held(Of(w, c).phase).value == Current(w) && w.grants != [] && w.grants[|w.grants| - 1] == c)
            && (forall c: Call, d: Call :: Held(Of(w, c).phase).Some? && Held(Of(w, d).phase).Some? ==> c == d)
  {
    InitialInv(start);
    RunKeepsInv(start, events);
    var w := Run(start, events);
    forall c: Call | Held(Of(w, c).phase).Some?
      ensures Held(Of(w, c).phase).value == Current(w) && w.grants != [] && w.grants[|w.grants| - 1] == c
    {
      assert ClientOk(w, c);
    }
  }

  /** Older, or nothing at all, never replaces a stored token. */
  predicate NoOlder(before: Disk, after: Disk) {
    Stored(before).Some? ==> Stored(after).Some? && Stored(before).value <= Stored(after).value
  }

  lemma {:induction false} StoredNeverGoesBack(w: World, events: seq<Event>)
    requires Inv(w)
    ensures NoOlder(w.disk, Run(w, events).disk)
    decreases |events|
  {
    if events != [] {
      var v, e := Run(w, events[..|events| - 1]), events[|events| - 1];
      StoredNeverGoesBack(w, events[..|events| - 1]);
      RunKeepsInv(w, events[..|events| - 1]);
      assert ClientOk(v, e.call);
    }
  }

  /** The file only moves forward between any two moments of any run, whatever fails. */
  lemma DiskGenerationMonotone(start: World, earlier: seq<Event>, later: seq<Event>)
    requires Initial(start)
    ensures NoOlder(Run(start, earlier).disk, Run(start, earlier + later).disk)
  {
    InitialInv(start);
    RunKeepsInv(start, earlier);
    RunAppend(start, earlier, later);
    StoredNeverGoesBack(Run(start, earlier), later);
  }

  /** A call POSTs at most twice, and the second time with a strictly newer token. */
  lemma AtMostTwoPosts(start: World, events: seq<Event>, c: Call)
    requires Initial(start)
    ensures var sent := Of(Run(start, events), c).sent;
            |sent| <= 2 && (|sent| == 2 ==> sent[0] < sent[1])
  {
    InitialInv(start);
    RunKeepsInv(start, events);
    assert CallOk(Run(start, events), Of(Run(start, events), c));
  }

  /** A fault is a dropped or unusable answer, a failed write or a dead process; a POST the server never evaluates is not one. */
  predicate Faultless(e: Event) {
    && !e.PersistFails? && !e.Crash?
    && (e.Receive? ==> e.delivery == Arrives)
  }

  lemma {:induction false} NothingLostWithoutFaults(w: World, events: seq<Event>)
    requires Inv(w) && !w.lost
    requires forall e :: e in events ==> Faultless(e)
    ensures !Run(w, events).lost
    decreases |events|
  {
    if events != [] {
      var v, e := Run(w, events[..|events| - 1]), events[|events| - 1];
      NothingLostWithoutFaults(w, events[..|events| - 1]);
      RunKeepsInv(w, events[..|events| - 1]);
      assert ClientOk(v, e.call) && CallOk(v, Of(v, e.call));
      assert e in events;
    }
  }

  ghost predicate Quiescent(w: World) {
    forall c: Call :: Of(w, c).phase.NotStarted? || Of(w, c).phase.Finished?
  }

  /** Without faults, once every call has returned, the file holds the server's current pair. */
  lemma QuiescentDiskIsCurrent(start: World, events: seq<Event>)
    requires Initial(start) && OnDisk(start)
    requires forall e :: e in events ==> Faultless(e)
    requires Quiescent(Run(start, events))
    ensures var w := Run(start, events);
            OnDisk(w) && (w.grants != [] ==> w.disk == Block(Some(Current(w)), Some(Current(w))))
  {
    InitialInv(start);
    RunKeepsInv(start, events);
    NothingLostWithoutFaults(start, events);
  }

  ghost predicate ClientAtLeast(me: Client, floor: Generation) {
    && (me.phase.Holding? ==> floor <= me.phase.token)
    && (forall t :: t in me.sent ==> floor <= t)
  }

  /** Every generation a call has seen is at least the one the run started with. */
  ghost predicate AtLeast(w: World, floor: Generation) {
    && (Stored(w.disk).Some? ==> floor <= Stored(w.disk).value)
    && (forall c: Call :: ClientAtLeast(Of(w, c), floor))
  }

  lemma OnlyOneCallMoves(w: World, e: Event, c: Call)
    requires c != e.call
    ensures Of(Apply(w, e), c) == Of(w, c)
  {
  }

  lemma OwnStepKeepsFloor(w: World, e: Event, floor: Generation)
    requires Inv(w) && AtLeast(w, floor)
    ensures ClientAtLeast(Of(Apply(w, e), e.call), floor)
  {
    assert ClientAtLeast(Of(w, e.call), floor);
  }

  lemma StepKeepsFloor(w: World, e: Event, floor: Generation)
    requires Inv(w) && AtLeast(w, floor) && floor <= 0
    ensures AtLeast(Apply(w, e), floor)
  {
    assert ClientOk(w, e.call);
    forall c: Call ensures ClientAtLeast(Of(Apply(w, e), c), floor) {
      if c == e.call {
        OwnStepKeepsFloor(w, e, floor);
      } else {
        OnlyOneCallMoves(w, e, c);
        assert ClientAtLeast(Of(w, c), floor);
      }
    }
  }

  lemma {:induction false} RunKeepsFloor(w: World, events: seq<Event>, floor: Generation)
    requires Inv(w) && AtLeast(w, floor) && floor <= 0
    ensures AtLeast(Run(w, events), floor)
    decreases |events|
  {
    if events != [] {
      RunKeepsFloor(w, events[..|events| - 1], floor);
      RunKeepsInv(w, events[..|events| - 1]);
      StepKeepsFloor(Run(w, events[..|events| - 1]), events[|events| - 1], floor);
    }
  }

  /**
   * A call reported as rejected sent a token that another call had rotated away,
   * provided the file was live when the run began; it was itself never granted
   * anything.
   */
  lemma RejectedMeansSomeoneElseRotated(start: World, events: seq<Event>, c: Call)
    requires Initial(start) && OnDisk(start)
    requires Of(Run(start, events), c).phase == Finished(Rejected)
    ensures var w := Run(start, events);
            var me := Of(w, c);
            me.sent != [] && 0 <= LastSent(me) < Current(w) && w.grants[LastSent(me)] != c && c !in w.grants
  {
    InitialInv(start);
    RunKeepsInv(start, events);
    RunKeepsFloor(start, events, 0);
    var w := Run(start, events);
    assert ClientOk(w, c) && CallOk(w, Of(w, c));
    assert ClientAtLeast(Of(w, c), 0);
    assert LastSent(Of(w, c)) in Of(w, c).sent;
    assert w.grants[LastSent(Of(w, c))] in w.grants;
  }

  // ---- When a rejection really means "log in again" -------------------------

  lemma LostStaysLost(w: World, e: Event)
    requires Inv(w) && w.lost
    ensures Apply(w, e).lost && Apply(w, e).grants == w.grants
  {
    assert ClientOk(w, e.call);
  }

  /** Once lost, no later event revives the account: nothing is ever granted or current again. */
  lemma {:induction false} LostIsForever(w: World, events: seq<Event>)
    requires Inv(w) && w.lost
    ensures var v := Run(w, events); v.lost && v.grants == w.grants && !OnDisk(v)
    decreases |events|
  {
    if events != [] {
      var v, e := Run(w, events[..|events| - 1]), events[|events| - 1];
      LostIsForever(w, events[..|events| - 1]);
      RunKeepsInv(w, events[..|events| - 1]);
      StepKeepsInv(v, e);
      LostStaysLost(v, e);
    }
  }

  /** What is left for the carrier of the current token to do. */
  function Remaining(w: World): seq<Event>
    requires Pending(w)
  {
    var c := w.grants[|w.grants| - 1];
    match Of(w, c).phase
    case Awaiting(_) => [Receive(c, Arrives), Load(c), Stage(c), Rename(c)]
    case Minted(_) => [Load(c), Stage(c), Rename(c)]
    case Loaded(_, _) => [Stage(c), Rename(c)]
    case _ => [Rename(c)]
  }

  lemma {:induction false} RunCons(w: World, e: Event, rest: seq<Event>)
    ensures Run(w, [e] + rest) == Run(Apply(w, e), rest)
  {
    RunAppend(w, [e], rest);
    assert [e][..0] == [];
  }

  /** Each step of the carrier brings it to the next, and the last one puts the current token on disk. */
  lemma {:induction false} CarrierAdvances(w: World)
    requires Inv(w) && Pending(w)
    ensures var c := w.grants[|w.grants| - 1];
            var v := Apply(w, Remaining(w)[0]);
            if Of(w, c).phase.Staged? then OnDisk(v)
            else Pending(v) && v.grants == w.grants && Remaining(v) == Remaining(w)[1..]
  {
    assert ClientOk(w, w.grants[|w.grants| - 1]);
  }

  lemma {:induction false} CarrierCanFinish(w: World)
    requires Inv(w) && Pending(w)
    ensures OnDisk(Run(w, Remaining(w)))
    decreases |Remaining(w)|
  {
    var steps := Remaining(w);
    var v := Apply(w, steps[0]);
    CarrierAdvances(w);
    StepKeepsInv(w, steps[0]);
    RunCons(w, steps[0], steps[1..]);
    assert [steps[0]] + steps[1..] == steps;
    if |steps| > 1 {
      CarrierCanFinish(v);
    }
  }

  ghost predicate CanRecover(w: World) {
    exists more: seq<Event> :: OnDisk(Run(w, more))
  }

  /** The account can come back without a login exactly while its token is not lost. */
  lemma RecoverableIffNotLost(start: World, events: seq<Event>)
    requires Initial(start)
    ensures var w := Run(start, events); !w.lost <==> CanRecover(w)
  {
    InitialInv(start);
    RunKeepsInv(start, events);
    var w := Run(start, events);
    if w.lost {
      forall more: seq<Event> ensures !OnDisk(Run(w, more)) { LostIsForever(w, more); }
    } else if Pending(w) {
      CarrierCanFinish(w);
      var more := Remaining(w);
      assert OnDisk(Run(w, more));
    } else {
      assert OnDisk(Run(w, []));
    }
  }

  /** This call has been granted the token the server takes as current, and has yet to finish writing it. */
  predicate Carries(w: World, c: Call) { Held(Of(w, c).phase) == Some(Current(w)) }

  /**
   * What a rejection means for the account, in terms of the file and the other
   * refreshers alone: when a call has ended rejected, the account can come back
   * without a login exactly if the file is current or another call is carrying
   * the token to it.
   */
  lemma RejectedIsDeadUnlessCarried(start: World, events: seq<Event>, c: Call)
    requires Initial(start)
    requires Of(Run(start, events), c).phase == Finished(Rejected)
    ensures var w := Run(start, events); CanRecover(w) <==> OnDisk(w) || exists other :: other != c && Carries(w, other)
  {
    InitialInv(start);
    RunKeepsInv(start, events);
    RecoverableIffNotLost(start, events);
    var w := Run(start, events);
    if other :| other != c && Carries(w, other) {
      assert ClientOk(w, other);
    }
    if Pending(w) {
      var grantee := w.grants[|w.grants| - 1];
      assert ClientOk(w, grantee) && grantee != c && Carries(w, grantee);
    }
  }

  /** In a fault-free run from a live file no rejection is the account's death: it can always come back without a login. */
  lemma FaultFreeRejectionIsNotDeath(start: World, events: seq<Event>, c: Call)
    requires Initial(start) && OnDisk(start)
    requires forall e :: e in events ==> Faultless(e)
    requires Of(Run(start, events), c).phase == Finished(Rejected)
    ensures CanRecover(Run(start, events))
  {
    InitialInv(start);
    NothingLostWithoutFaults(start, events);
    RecoverableIffNotLost(start, events);
  }

  /**
   * A fresh call, or one that was overtaken and refused, succeeds if it reads
   * the file while the file is current and nothing fails: the file then holds
   * the next generation.
   */
  lemma ReadingCurrentSucceeds(w: World, c: Call)
    requires Inv(w) && OnDisk(w)
    requires Of(w, c).phase.NotStarted? || Of(w, c).phase.Reconsider?
    ensures var v := Run(w, [Read(c), Post(c, true), Receive(c, Arrives), Load(c), Stage(c), Rename(c)]);
            && Of(v, c).phase == Finished(Success)
            && Current(v) == Current(w) + 1
            && v.disk == Block(Some(Current(v)), Some(Current(v)))
  {
    assert ClientOk(w, c) && CallOk(w, Of(w, c));
    var w1 := Apply(w, Read(c));
    var w2 := Apply(w1, Post(c, true));
    var w3 := Apply(w2, Receive(c, Arrives));
    var w4 := Apply(w3, Load(c));
    var w5 := Apply(w4, Stage(c));
    var w6 := Apply(w5, Rename(c));
    RunIs([w, w1, w2, w3, w4, w5, w6], [Read(c), Post(c, true), Receive(c, Arrives), Load(c), Stage(c), Rename(c)]);
  }

  const LIVE_START := World(Block(Some(0), Some(0)), Missing, [], map[], false)
  const OVERTAKEN: seq<Event> :=
    [Read(0), Read(1), Post(0, true), Post(1, true), Receive(1, Arrives), Read(1)]

  lemma OvertakenRun()
    ensures Initial(LIVE_START) && OnDisk(LIVE_START)
    ensures Of(Run(LIVE_START, OVERTAKEN), 1).phase == Finished(Rejected)
    ensures !Run(LIVE_START, OVERTAKEN).lost
  {
    var w1 := Apply(LIVE_START, Read(0));
    var w2 := Apply(w1, Read(1));
    var w3 := Apply(w2, Post(0, true));
    var w4 := Apply(w3, Post(1, true));
    var w5 := Apply(w4, Receive(1, Arrives));
    var w6 := Apply(w5, Read(1));
    RunIs([LIVE_START, w1, w2, w3, w4, w5, w6], OVERTAKEN);
  }

  /**
   * A rejection does not by itself mean the account is dead: here call 1 is
   * refused, finds the file unchanged and gives up while call 0 is still
   * writing; the file can become current again with no login. No fault occurs.
   */
  lemma RejectedWhileAlive()
    ensures Initial(LIVE_START) && OnDisk(LIVE_START)
    ensures forall e :: e in OVERTAKEN ==> Faultless(e)
    ensures Of(Run(LIVE_START, OVERTAKEN), 1).phase == Finished(Rejected)
    ensures CanRecover(Run(LIVE_START, OVERTAKEN))
  {
    OvertakenRun();
    RecoverableIffNotLost(LIVE_START, OVERTAKEN);
  }

  lemma {:induction false} RunIs(worlds: seq<World>, events: seq<Event>)
    requires |worlds| == |events| + 1
    requires forall k :: 0 <= k < |events| ==> worlds[k + 1] == Apply(worlds[k], events[k])
    ensures Run(worlds[0], events) == worlds[|events|]
    decreases |events|
  {
    if events != [] {
      RunIs(worlds[..|events|], events[..|events| - 1]);
    }
  }

  // ---- The call itself, among all the others ---------------------------------

  lemma {:induction false} OthersLeaveMeAlone(w: World, events: seq<Event>, me: Call)
    requires OthersOnly(events, me)
    ensures Of(Run(w, events), me) == Of(w, me)
    decreases |events|
  {
    if events != [] {
      OthersLeaveMeAlone(w, events[..|events| - 1], me);
      assert events[|events| - 1] in events;
    }
  }

  /**
   * Everything a call cannot decide for itself: what the other calls do before
   * each of its actions, what becomes of each of its POSTs, and at which of the
   * three persist steps, if any, the write fails.
   */
  datatype Plan = Plan(others: nat -> seq<Event>, evaluated: nat -> bool, delivery: nat -> Delivery, writeFails: nat -> bool)

  ghost predicate OthersOnly(events: seq<Event>, me: Call) { forall e :: e in events ==> e.call != me }

  ghost predicate PlanFor(plan: Plan, me: Call) { forall k: nat :: OthersOnly(plan.others(k), me) }

  /** Under this plan nothing fails: not this call's writes, not the answers on their way to it, and none of the others' events. */
  ghost predicate Calm(plan: Plan) {
    && (forall k: nat :: !plan.writeFails(k) && plan.delivery(k) == Arrives)
    && (forall k: nat :: AllFaultless(plan.others(k)))
  }

  ghost predicate AllFaultless(events: seq<Event>) { forall e :: e in events ==> Faultless(e) }

  lemma PlanAt(plan: Plan, me: Call, k: nat)
    requires PlanFor(plan, me)
    ensures OthersOnly(plan.others(k), me)
    ensures Calm(plan) ==> AllFaultless(plan.others(k)) && !plan.writeFails(k) && plan.delivery(k) == Arrives
  {
  }

  /** A POST and what is made of its answer. */
  lemma PostSteps(w: World, v: World, me: Call, evaluated: bool, delivery: Delivery)
    requires Of(w, me).phase.Holding? && Of(v, me) == Of(Apply(w, Post(me, evaluated)), me)
    ensures var posted, was := Of(v, me), Of(w, me);
            && posted.phase.Awaiting? && posted.sent == was.sent + [was.phase.token]
            && var p := Of(Apply(v, Receive(me, delivery)), me);
            && p.sent == posted.sent
            && p.phase == match (posted.phase.reply, delivery)
                          case (Granted(g), Arrives) => Minted(g)
                          case (Granted(_), Unusable) => Finished(BadResponse)
                          case (Refused, Arrives) => if |was.sent| == 0 then Reconsider else Finished(Rejected)
                          case _ => Finished(Transport)
  {
  }

  /** The three persist steps of a call that carries a token: each goes on to the next, or ends the call. */
  lemma PersistSteps(w: World, me: Call)
    ensures var p := Of(w, me).phase;
            && (p.Minted? ==> Of(Apply(w, Load(me)), me).phase in {Finished(Success), Loaded(p.gen, w.disk)})
            && (p.Loaded? ==> Of(Apply(w, Stage(me)), me).phase == Staged(p.gen))
            && (p.Staged? ==> Of(Apply(w, Rename(me)), me).phase == Finished(Success))
            && (p.Minted? || p.Loaded? || p.Staged? ==> Of(Apply(w, PersistFails(me)), me).phase == Finished(Success))
  {
  }

  /** A carrier that has its token in hand always finds a file to write it into. */
  lemma CarrierLoads(w: World, me: Call)
    requires Inv(w) && Of(w, me).phase.Minted?
    ensures var p := Of(Apply(w, Load(me)), me).phase; p.Loaded? && p.gen == Of(w, me).phase.gen
  {
    assert ClientOk(w, me);
  }

  /** What it then puts in place is its own pair, and that pair is the server's current one. */
  lemma CarrierPublishes(w: World, me: Call)
    requires Inv(w) && Of(w, me).phase.Staged?
    ensures var g, v := Of(w, me).phase.gen, Apply(w, Rename(me)); v.disk == Block(Some(g), Some(g)) && OnDisk(v)
  {
    assert ClientOk(w, me);
  }

  /** A run followed by what others do is still a run from the same start, and keeps its invariant. */
  lemma OthersKeepInv(start: World, trace: seq<Event>, others: seq<Event>)
    requires Inv(start)
    ensures Inv(Run(start, trace)) && Inv(Run(Run(start, trace), others))
  {
    RunKeepsInv(start, trace);
    RunKeepsInv(Run(start, trace), others);
  }

  class Installation {
    var world: World

    constructor (world: World)
      ensures this.world == world
    {
      this.world := world;
    }

    /** Let the others act, then take one step of one's own. */
    method Act(me: Call, e: Event, others: seq<Event>, ghost trace: seq<Event>, ghost start: World)
        returns (ghost longer: seq<Event>, ghost seen: World)
      requires e.call == me && OthersOnly(others, me)
      requires world == Run(start, trace)
      modifies this
      ensures seen == Run(old(world), others) && Of(seen, me) == Of(old(world), me)
      ensures world == Run(start, longer) == Apply(seen, e)
      ensures Inv(start) ==> Inv(seen)
      ensures AllFaultless(trace) && AllFaultless(others) && Faultless(e) ==> AllFaultless(longer)
    {
      seen := Run(world, others);
      world := Apply(Run(world, others), e);
      if Inv(start) { OthersKeepInv(start, trace, others); }
      longer := trace + others + [e];
      RunAppend(start, trace, others);
      OthersLeaveMeAlone(old(world), others, me);
      hide Apply, Faultless, Inv;
      assert longer[..|longer| - 1] == trace + others;
    }

    /** Write the rotated block back; every failure on the way is swallowed, and when there is none the granted pair is on disk, current. */
    method PersistRotatedTokens(me: Call, plan: Plan, at: nat, ghost trace: seq<Event>, ghost start: World)
        returns (ghost longer: seq<Event>)
      requires PlanFor(plan, me) && world == Run(start, trace)
      requires Of(world, me).phase.Minted?
      modifies this
      ensures world == Run(start, longer)
      ensures Of(world, me).phase == Finished(Success)
      ensures Calm(plan) && AllFaultless(trace) ==> AllFaultless(longer)
      ensures var granted := Of(old(world), me).phase.gen;
              Inv(start) && !plan.writeFails(at) && !plan.writeFails(at + 1) && !plan.writeFails(at + 2) ==>
                world.disk == Block(Some(granted), Some(granted)) && OnDisk(world)
    {
      PlanAt(plan, me, at);
      PlanAt(plan, me, at + 1);
      PlanAt(plan, me, at + 2);
      hide Inv, PlanFor, OthersOnly, Calm, AllFaultless, Run, Apply, OnDisk;
      ghost var seen;
      longer, seen := Act(me, if plan.writeFails(at) then PersistFails(me) else Load(me), plan.others(at), trace, start);
      PersistSteps(seen, me);
      if Inv(start) { CarrierLoads(seen, me); }
      if Of(world, me).phase.Loaded? {
        longer, seen := Act(me, if plan.writeFails(at + 1) then PersistFails(me) else Stage(me), plan.others(at + 1), longer, start);
        PersistSteps(seen, me);
      }
      if Of(world, me).phase.Staged? {
        longer, seen := Act(me, if plan.writeFails(at + 2) then PersistFails(me) else Rename(me), plan.others(at + 2), longer, start);
        PersistSteps(seen, me);
        if Inv(start) { CarrierPublishes(seen, me); }
      }
    }

    /** POST the grant and classify the answer; a usable grant is persisted before returning. */
    method RefreshAccessToken(me: Call, token: Generation, attempt: nat, plan: Plan, at: nat, ghost trace: seq<Event>, ghost start: World)
        returns (minted: bool, kind: Outcome, ghost longer: seq<Event>)
      requires PlanFor(plan, me) && world == Run(start, trace)
      requires Of(world, me).phase == Holding(token) && |Of(world, me).sent| == attempt <= 1
      modifies this
      ensures world == Run(start, longer)
      ensures Calm(plan) && AllFaultless(trace) ==> AllFaultless(longer)
      ensures minted ==> Of(world, me).phase == Finished(Success)
      ensures !minted && kind == Rejected && attempt == 0 ==> Of(world, me).phase == Reconsider
      ensures !minted && !(kind == Rejected && attempt == 0) ==> Of(world, me).phase == Finished(kind)
      ensures Of(world, me).phase.Reconsider? ==> |Of(world, me).sent| == attempt + 1 && LastSent(Of(world, me)) == token
    {
      PlanAt(plan, me, attempt);
      PlanAt(plan, me, at);
      PlanAt(plan, me, at + 1);
      hide Inv, PlanFor, OthersOnly, Calm, AllFaultless, Run, Apply, OnDisk;
      ghost var before, seen;
      longer, before := Act(me, Post(me, plan.evaluated(attempt)), plan.others(at), trace, start);
      PostSteps(before, world, me, plan.evaluated(attempt), Arrives);
      var reply := Of(world, me).phase.reply;
      longer, seen := Act(me, Receive(me, plan.delivery(attempt)), plan.others(at + 1), longer, start);
      PostSteps(before, seen, me, plan.evaluated(attempt), plan.delivery(attempt));
      match plan.delivery(attempt) {
        case Arrives =>
          match reply {
            case Granted(_) =>
              longer := PersistRotatedTokens(me, plan, at + 2, longer, start);
              minted, kind := true, Success;
            case Refused => minted, kind := false, Rejected;
            case Unevaluated => minted, kind := false, Transport;
          }
        case Unusable => minted, kind := false, if reply.Granted? then BadResponse else Transport;
        case Lost => minted, kind := false, Transport;
      }
    }

    /**
     * One refresh of one account, whatever the other calls do in between: the
     * world it leaves is a run of the protocol, without a fault when the plan
     * has none, and the outcome it reports is the one its automaton finished with.
     */
    method RefreshAccountCredentials(me: Call, plan: Plan) returns (out: Outcome, ghost trace: seq<Event>)
      requires PlanFor(plan, me) && Of(world, me) == IDLE
      modifies this
      ensures world == Run(old(world), trace)
      ensures Of(world, me).phase == Finished(out)
      ensures Calm(plan) ==> AllFaultless(trace)
    {
      PlanAt(plan, me, 0);
      PlanAt(plan, me, 6);
      assert AllFaultless([]);
      ghost var start := world;
      hide Inv, PlanFor, OthersOnly, Calm, AllFaultless, Run;
      var disk := Run(world, plan.others(0)).disk;
      ghost var seen;
      trace, seen := Act(me, Read(me), plan.others(0), [], start);
      if disk.Missing? {
        return MissingFile, trace;
      }
      if Stored(disk).None? {
        return NoRefreshToken, trace;
      }
      var token := Stored(disk).value;
      var minted, kind;
      minted, kind, trace := RefreshAccessToken(me, token, 0, plan, 1, trace, start);
      if !minted && kind == Rejected {
        disk := Run(world, plan.others(6)).disk;
        trace, seen := Act(me, Read(me), plan.others(6), trace, start);
        if Stored(disk).Some? && Stored(disk).value != token {
          minted, kind, trace := RefreshAccessToken(me, Stored(disk).value, 1, plan, 7, trace, start);
        }
      }
      out := if minted then Success else kind;
    }
  }
}
