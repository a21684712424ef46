/** The TCP connection pool of one control channel: the listener, the pool loop and the
    control channel of `server.rs` and the honest client of `client.rs`, joined by queues.
    A step is what one task does between two awaits. */
module TcpPool {
  const TCP_POOL_SIZE: nat := 8
  const CHAN_SIZE: nat := 2048

  /** Visitors are numbered as they are accepted, data channels as the client starts them. */
  type VisitorId = nat
  type ChannelId = nat

  datatype Command = CreateDataChannel | HeartBeat

  /** `tcp_listen_and_send`: waiting for a visitor, or handing one to the pool. */
  datatype Listener = Listening | Handing(v: VisitorId) | ListenerDown

  /** `run_tcp_connection_pool`: waiting for a visitor, waiting for a data channel for
      one, or writing the start command on the channel it picked. */
  datatype Pool = WaitingVisitor | WaitingChannel(v: VisitorId) | Starting(v: VisitorId, ch: ChannelId) | PoolDown

  /** `ControlChannel::run`: at its select, or writing a command. */
  datatype Control = Selecting | Writing(cmd: Command) | ControlDown

  datatype Pair = Pair(v: VisitorId, ch: ChannelId)

  datatype Session = Session(
    handleDropped: bool,
    requests: nat,            // data_ch_req queue, unbounded
    listener: Listener,
    visitors: seq<VisitorId>, // visitor queue, at most CHAN_SIZE
    pool: Pool,
    control: Control,
    wire: seq<Command>,       // commands the client has not read yet
    opening: set<ChannelId>,  // run_data_channel tasks before the server queued their channel
    lost: set<ChannelId>,     // channels that failed before being queued
    queue: seq<ChannelId>,    // data_ch queue, at most 2 * CHAN_SIZE
    broken: set<ChannelId>,   // channels found broken by the pool
    pairs: seq<Pair>,         // visitors being served, oldest first
    accepted: nat,
    started: nat)

  /** `ControlChannelHandle::new` fills the request queue before any task runs. */
  const NEW_SESSION: Session :=
    Session(false, TCP_POOL_SIZE, Listening, [], WaitingVisitor, Selecting, [], {}, {}, [], {}, [], 0, 0)

  datatype Step =
    // listener
    | Accept | AcceptRefused | HandOver | HandOverDropped | ListenerStop
    // pool loop
    | TakeVisitor | VisitorsClosed | TakeChannel | ChannelsClosed | StartOk | StartBroken | StartBrokenDown
    // control channel
    | TakeRequest | Beat | WriteOk | WriteFail | ControlStop
    // client and data-channel handshakes
    | ReadCommand | ChannelQueued(ch: ChannelId) | ChannelLost(ch: ChannelId)
    // the registry drops the handle
    | DropHandle

  predicate Enabled(s: Session, step: Step) {
    match step
    case Accept => s.listener.Listening? && !s.control.ControlDown?
    case AcceptRefused => s.listener.Listening? && s.control.ControlDown?
    case HandOver => s.listener.Handing? && !s.pool.PoolDown? && |s.visitors| < CHAN_SIZE
    case HandOverDropped => s.listener.Handing? && s.pool.PoolDown?
    case ListenerStop => s.listener.Listening? && s.handleDropped
    case TakeVisitor => s.pool.WaitingVisitor? && s.visitors != []
    case VisitorsClosed => s.pool.WaitingVisitor? && s.visitors == [] && s.listener.ListenerDown?
    case TakeChannel => s.pool.WaitingChannel? && s.queue != []
    case ChannelsClosed => s.pool.WaitingChannel? && s.queue == [] && s.handleDropped
    case StartOk => s.pool.Starting?
    case StartBroken => s.pool.Starting? && !s.control.ControlDown?
    case StartBrokenDown => s.pool.Starting? && s.control.ControlDown?
    case TakeRequest => s.control.Selecting? && s.requests > 0
    case Beat => s.control.Selecting?
    case WriteOk => s.control.Writing?
    case WriteFail => s.control.Writing?
    case ControlStop =>
      s.control.Selecting? && (s.handleDropped || (s.requests == 0 && s.listener.ListenerDown? && s.pool.PoolDown?))
    case ReadCommand => s.wire != []
    case ChannelQueued(ch) =>
      ch in s.opening && !s.handleDropped && !s.pool.PoolDown? && |s.queue| < 2 * CHAN_SIZE
    case ChannelLost(ch) => ch in s.opening
    case DropHandle => !s.handleDropped
  }

  function Do(s: Session, step: Step): Session
    requires Enabled(s, step)
  {
    match step
    case Accept =>
      s.(requests := s.requests + 1, listener := Handing(s.accepted), accepted := s.accepted + 1)
    case AcceptRefused => s.(listener := ListenerDown)
    case HandOver => s.(visitors := s.visitors + [s.listener.v], listener := Listening)
    case HandOverDropped => s.(listener := Listening)
    case ListenerStop => s.(listener := ListenerDown)
    case TakeVisitor => s.(pool := WaitingChannel(s.visitors[0]), visitors := s.visitors[1..])
    case VisitorsClosed => s.(pool := PoolDown)
    case TakeChannel => s.(pool := Starting(s.pool.v, s.queue[0]), queue := s.queue[1..])
    case ChannelsClosed => s.(pool := PoolDown)
    case StartOk => s.(pool := WaitingVisitor, pairs := s.pairs + [Pair(s.pool.v, s.pool.ch)])
    case StartBroken =>
      s.(pool := WaitingChannel(s.pool.v), broken := s.broken + {s.pool.ch}, requests := s.requests + 1)
    case StartBrokenDown => s.(pool := PoolDown, broken := s.broken + {s.pool.ch})
    case TakeRequest => s.(control := Writing(CreateDataChannel), requests := s.requests - 1)
    case Beat => s.(control := Writing(HeartBeat))
    case WriteOk => s.(control := Selecting, wire := s.wire + [s.control.cmd])
    case WriteFail => s.(control := ControlDown)
    case ControlStop => s.(control := ControlDown)
    case ReadCommand =>
      if s.wire[0].HeartBeat? then
        s.(wire := s.wire[1..])
      else
        s.(wire := s.wire[1..], opening := s.opening + {s.started}, started := s.started + 1)
    case ChannelQueued(ch) => s.(opening := s.opening - {ch}, queue := s.queue + [ch])
    case ChannelLost(ch) => s.(opening := s.opening - {ch}, lost := s.lost + {ch})
    case DropHandle => s.(handleDropped := true)
  }

  predicate Possible(s: Session, steps: seq<Step>)
    decreases |steps|
  {
    steps == [] || (Enabled(s, steps[0]) && Possible(Do(s, steps[0]), steps[1..]))
  }

  function After(s: Session, steps: seq<Step>): Session
    requires Possible(s, steps)
    decreases |steps|
  {
    if steps == [] then s else After(Do(s, steps[0]), steps[1..])
  }

  // ----- First come, first served -----

  function Upto(n: nat): (r: seq<VisitorId>)
    ensures |r| == n && forall i :: 0 <= i < n ==> r[i] == i
  {
    if n == 0 then [] else Upto(n - 1) + [n - 1]
  }

  function Served(pairs: seq<Pair>): (r: seq<VisitorId>)
    ensures |r| == |pairs| && forall i :: 0 <= i < |pairs| ==> r[i] == pairs[i].v
  {
    if pairs == [] then [] else Served(pairs[..|pairs| - 1]) + [pairs[|pairs| - 1].v]
  }

  function Serving(pairs: seq<Pair>): (r: seq<ChannelId>)
    ensures |r| == |pairs| && forall i :: 0 <= i < |pairs| ==> r[i] == pairs[i].ch
  {
    if pairs == [] then [] else Serving(pairs[..|pairs| - 1]) + [pairs[|pairs| - 1].ch]
  }

  function InPool(p: Pool): seq<VisitorId> {
    if p.WaitingChannel? || p.Starting? then [p.v] else []
  }

  function AtListener(l: Listener): seq<VisitorId> {
    if l.Handing? then [l.v] else []
  }

  /** The accepted visitors that are not paired yet, oldest first. */
  function Unpaired(s: Session): seq<VisitorId> {
    InPool(s.pool) + s.visitors + AtListener(s.listener)
  }

  /** Paired, in the pool's hands, queued, at the listener: read in this order these are
      all the visitors ever accepted, in acceptance order. Once the pool has stopped, the
      paired ones are still the first ones accepted. */
  ghost predicate InOrder(s: Session) {
    if s.pool.PoolDown? then Served(s.pairs) <= Upto(s.accepted)
    else Served(s.pairs) + Unpaired(s) == Upto(s.accepted)
  }

  // ----- Channels serve one visitor each -----

  function Held(p: Pool): seq<ChannelId> {
    if p.Starting? then [p.ch] else []
  }

  /** Channels the server has, in the order it got them: serving, in hand, queued. */
  function Arrived(s: Session): seq<ChannelId> {
    Serving(s.pairs) + Held(s.pool) + s.queue
  }

  ghost predicate NoRepeats<T>(q: seq<T>) {
    forall i, j :: 0 <= i < j < |q| ==> q[i] != q[j]
  }

  /** No channel is in two places, and only started ones are in any. */
  ghost predicate Exclusive(s: Session) {
    && NoRepeats(Arrived(s))
    && (forall ch :: ch in Arrived(s) ==> ch < s.started && ch !in s.opening && ch !in s.lost && ch !in s.broken)
    && s.opening !! s.lost && s.opening !! s.broken && s.lost !! s.broken
    && (forall ch :: ch in s.opening || ch in s.lost || ch in s.broken ==> ch < s.started)
  }

  // ----- The ledger -----

  function Creates(wire: seq<Command>): nat {
    if wire == [] then 0 else Creates(wire[..|wire| - 1]) + (if wire[|wire| - 1].CreateDataChannel? then 1 else 0)
  }

  /** Data channels asked for and still on their way: queued requests, commands being
      written or in flight, channels opening, queued or in the pool's hands. */
  function Underway(s: Session): nat {
    s.requests + (if s.control == Writing(CreateDataChannel) then 1 else 0) + Creates(s.wire)
    + |s.opening| + |s.queue| + |Held(s.pool)|
  }

  predicate Live(s: Session) {
    !s.control.ControlDown? && !s.pool.PoolDown?
  }

  /** Channels underway and channels lost add up to the pool size plus one per visitor
      still waiting, as long as the session lives. */
  predicate Balanced(s: Session) {
    Live(s) ==> Underway(s) + |s.lost| == TCP_POOL_SIZE + |Unpaired(s)|
  }

  ghost predicate Inv(s: Session) {
    InOrder(s) && Exclusive(s) && Balanced(s) && Roomy(s)
  }

  lemma CreatesLast(wire: seq<Command>, cmd: Command)
    ensures Creates(wire + [cmd]) == Creates(wire) + (if cmd.CreateDataChannel? then 1 else 0)
  {
    assert (wire + [cmd])[..|wire|] == wire;
  }

  lemma CreatesHead(wire: seq<Command>)
    requires wire != []
    ensures Creates(wire) == Creates(wire[1..]) + (if wire[0].CreateDataChannel? then 1 else 0)
  {
    if |wire| > 1 {
      CreatesHead(wire[..|wire| - 1]);
      assert wire[..|wire| - 1][1..] == wire[1..][..|wire| - 2];
    }
  }

  predicate OfListener(step: Step) {
    step.Accept? || step.AcceptRefused? || step.HandOver? || step.HandOverDropped? || step.ListenerStop?
  }

  predicate OfPool(step: Step) {
    step.TakeVisitor? || step.VisitorsClosed? || step.TakeChannel? || step.ChannelsClosed?
    || step.StartOk? || step.StartBroken? || step.StartBrokenDown?
  }

  predicate OfControl(step: Step) {
    step.TakeRequest? || step.Beat? || step.WriteOk? || step.WriteFail? || step.ControlStop?
  }

  lemma ListenerKeepsOrder(s: Session, step: Step)
    requires InOrder(s) && Enabled(s, step) && OfListener(step)
    ensures InOrder(Do(s, step))
  {
    var s' := Do(s, step);
    if step.Accept? && !s.pool.PoolDown? {
      assert Unpaired(s') == Unpaired(s) + [s.accepted];
    } else if step.HandOver? {
      assert Unpaired(s') == Unpaired(s);
    }
  }

  lemma PairingKeepsOrder(s: Session)
    requires s.pool.Starting?
    ensures var s' := Do(s, StartOk); Served(s'.pairs) + Unpaired(s') == Served(s.pairs) + Unpaired(s)
  {
    var s' := Do(s, StartOk);
    assert s'.pairs[..|s.pairs|] == s.pairs;
    assert Served(s'.pairs) == Served(s.pairs) + [s.pool.v];
    assert Unpaired(s) == [s.pool.v] + Unpaired(s');
  }

  lemma PoolKeepsOrder(s: Session, step: Step)
    requires InOrder(s) && Enabled(s, step) && OfPool(step)
    ensures InOrder(Do(s, step))
  {
    var s' := Do(s, step);
    if step.StartOk? {
      PairingKeepsOrder(s);
    } else if step.TakeVisitor? {
      assert Unpaired(s') == Unpaired(s);
    }
  }

  /** Channels stay exclusive as long as what has arrived stays the same. */
  lemma SameArrived(s: Session, s': Session)
    requires Exclusive(s) && Arrived(s') == Arrived(s)
    requires s'.opening == s.opening && s'.lost == s.lost && s'.broken == s.broken && s'.started == s.started
    ensures Exclusive(s')
  {
  }

  lemma PairingKeepsArrived(s: Session)
    requires s.pool.Starting?
    ensures Arrived(Do(s, StartOk)) == Arrived(s)
  {
    var s' := Do(s, StartOk);
    assert s'.pairs[..|s.pairs|] == s.pairs;
    assert Serving(s'.pairs) == Serving(s.pairs) + [s.pool.ch];
  }

  lemma PoolKeepsExclusive(s: Session, step: Step)
    requires Exclusive(s) && Enabled(s, step) && OfPool(step)
    ensures Exclusive(Do(s, step))
  {
    var s' := Do(s, step);
    if step.StartBroken? || step.StartBrokenDown? {
      DropHeld(s, s');
    } else {
      if step.StartOk? {
        PairingKeepsArrived(s);
      } else if step.TakeChannel? {
        assert Arrived(s) == Serving(s.pairs) + [s.queue[0]] + s.queue[1..];
      }
      SameArrived(s, s');
    }
  }

  lemma QueuedKeepsExclusive(s: Session, ch: ChannelId)
    requires Exclusive(s) && Enabled(s, ChannelQueued(ch))
    ensures Exclusive(Do(s, ChannelQueued(ch)))
  {
    assert Arrived(Do(s, ChannelQueued(ch))) == Arrived(s) + [ch];
  }

  /** Nothing but the channels underway differs. */
  predicate SamePlaces(s: Session, s': Session) {
    s'.pairs == s.pairs && s'.pool == s.pool && s'.queue == s.queue && s'.broken == s.broken
  }

  lemma ClientKeepsExclusive(s: Session)
    requires Exclusive(s) && Enabled(s, ReadCommand)
    ensures Exclusive(Do(s, ReadCommand))
  {
    var s' := Do(s, ReadCommand);
    assert SamePlaces(s, s') && s'.lost == s.lost;
    assert Arrived(s') == Arrived(s);
    if s'.started != s.started {
      assert forall ch :: ch in Arrived(s) ==> ch != s.started;
    }
  }

  lemma LossKeepsExclusive(s: Session, ch: ChannelId)
    requires Exclusive(s) && Enabled(s, ChannelLost(ch))
    ensures Exclusive(Do(s, ChannelLost(ch)))
  {
    assert Arrived(Do(s, ChannelLost(ch))) == Arrived(s);
  }

  /** Every other step leaves all channels where they are. */
  lemma NoChannelMoves(s: Session, step: Step)
    requires Enabled(s, step)
    requires OfListener(step) || OfControl(step) || step.DropHandle?
    ensures var s' := Do(s, step);
      SamePlaces(s, s') && s'.opening == s.opening && s'.lost == s.lost && s'.started == s.started
  {
  }

  lemma OthersKeepExclusive(s: Session, s': Session)
    requires Exclusive(s) && SamePlaces(s, s')
    requires s'.opening == s.opening && s'.lost == s.lost && s'.started == s.started
    ensures Exclusive(s')
  {
    SameArrived(s, s');
  }

  lemma DropHeld(s: Session, s': Session)
    requires Exclusive(s) && s.pool.Starting?
    requires !s'.pool.Starting? && s'.broken == s.broken + {s.pool.ch} && s'.queue == s.queue && s'.pairs == s.pairs
    requires s'.opening == s.opening && s'.lost == s.lost && s'.started == s.started
    ensures Exclusive(s')
  {
    var n := |Serving(s.pairs)|;
    assert Arrived(s) == Serving(s.pairs) + [s.pool.ch] + s.queue;
    assert Arrived(s') == Serving(s.pairs) + s.queue;
    assert Arrived(s)[n] == s.pool.ch;
    forall i | 0 <= i < |Arrived(s')|
      ensures Arrived(s')[i] in Arrived(s) && Arrived(s')[i] != s.pool.ch
    {
      assert Arrived(s')[i] == Arrived(s)[if i < n then i else i + 1];
    }
    forall i, j | 0 <= i < j < |Arrived(s')| ensures Arrived(s')[i] != Arrived(s')[j] {
      assert Arrived(s')[i] == Arrived(s)[if i < n then i else i + 1];
      assert Arrived(s')[j] == Arrived(s)[if j < n then j else j + 1];
    }
  }

  lemma PoolKeepsBalance(s: Session, step: Step)
    requires Balanced(s) && Enabled(s, step) && OfPool(step)
    ensures Balanced(Do(s, step))
  {
  }

  lemma ListenerKeepsBalance(s: Session, step: Step)
    requires Balanced(s) && Enabled(s, step) && OfListener(step)
    ensures Balanced(Do(s, step))
  {
  }

  lemma ClientKeepsBalance(s: Session)
    requires Balanced(s) && Exclusive(s) && Enabled(s, ReadCommand)
    ensures Balanced(Do(s, ReadCommand))
  {
    var s' := Do(s, ReadCommand);
    CreatesHead(s.wire);
    assert s.started !in s.opening;
    assert Unpaired(s') == Unpaired(s);
    if s.wire[0].CreateDataChannel? {
      assert |s'.opening| == |s.opening| + 1;
    }
    assert Underway(s') == Underway(s);
  }

  lemma ControlKeepsBalance(s: Session, step: Step)
    requires Balanced(s) && Enabled(s, step) && OfControl(step)
    ensures Balanced(Do(s, step))
  {
    if step.WriteOk? {
      CreatesLast(s.wire, s.control.cmd);
    }
  }

  lemma ChannelKeepsBalance(s: Session, step: Step)
    requires Balanced(s) && Exclusive(s) && Enabled(s, step)
    requires step.ChannelQueued? || step.ChannelLost? || step.DropHandle?
    ensures Balanced(Do(s, step))
  {
    var s' := Do(s, step);
    assert Unpaired(s') == Unpaired(s);
    if !step.DropHandle? {
      assert |s'.opening| == |s.opening| - 1;
    }
  }

  lemma OthersKeepOrder(s: Session, step: Step)
    requires InOrder(s) && Enabled(s, step) && !OfPool(step) && !OfListener(step)
    ensures InOrder(Do(s, step))
  {
  }

  lemma StepKeepsOrder(s: Session, step: Step)
    requires InOrder(s) && Enabled(s, step)
    ensures InOrder(Do(s, step))
  {
    if OfListener(step) {
      ListenerKeepsOrder(s, step);
    } else if OfPool(step) {
      PoolKeepsOrder(s, step);
    } else {
      OthersKeepOrder(s, step);
    }
  }

  lemma StepKeepsExclusive(s: Session, step: Step)
    requires Exclusive(s) && Enabled(s, step)
    ensures Exclusive(Do(s, step))
  {
    if step.ChannelQueued? {
      QueuedKeepsExclusive(s, step.ch);
    } else if OfPool(step) {
      PoolKeepsExclusive(s, step);
    } else if step.ReadCommand? {
      ClientKeepsExclusive(s);
    } else if step.ChannelLost? {
      LossKeepsExclusive(s, step.ch);
    } else {
      NoChannelMoves(s, step);
      OthersKeepExclusive(s, Do(s, step));
    }
  }

  lemma StepKeepsBalance(s: Session, step: Step)
    requires Balanced(s) && Exclusive(s) && Enabled(s, step)
    ensures Balanced(Do(s, step))
  {
    if OfPool(step) {
      PoolKeepsBalance(s, step);
    } else if OfListener(step) {
      ListenerKeepsBalance(s, step);
    } else if step.ReadCommand? {
      ClientKeepsBalance(s);
    } else if OfControl(step) {
      ControlKeepsBalance(s, step);
    } else {
      ChannelKeepsBalance(s, step);
    }
  }

  // ----- No data channel ever waits for room -----

  const MOST_CHANNELS: nat := TCP_POOL_SIZE + CHAN_SIZE + 2

  /** Channels that are in the queue or may still get there without a further request. */
  function Supply(s: Session): nat {
    (if s.control == Writing(CreateDataChannel) then 1 else 0) + Creates(s.wire) + |s.opening| + |s.queue|
  }

  /** Never more visitors queued than there are slots, and so, while there is a pool to
      take them, never more channels on their way than visitors the pool can owe one,
      even once the control channel is down. */
  ghost predicate Roomy(s: Session) {
    && |s.visitors| <= CHAN_SIZE
    && |s.queue| <= MOST_CHANNELS
    && (!s.pool.PoolDown? ==> Supply(s) <= MOST_CHANNELS)
  }

  lemma SupplyWhileLive(s: Session)
    requires Balanced(s) && Live(s) && |s.visitors| <= CHAN_SIZE
    ensures Supply(s) <= MOST_CHANNELS
  {
  }

  /** Without the control channel no more commands go out. */
  lemma SupplyDriesUp(s: Session, step: Step)
    requires Enabled(s, step) && Do(s, step).control.ControlDown?
    ensures Supply(Do(s, step)) <= Supply(s)
  {
    if step.ReadCommand? {
      CreatesHead(s.wire);
      OneMore(s.opening, s.started);
    }
  }

  lemma QueuesStayBounded(s: Session, step: Step)
    requires Roomy(s) && Enabled(s, step)
    ensures |Do(s, step).visitors| <= CHAN_SIZE && |Do(s, step).queue| <= MOST_CHANNELS
  {
  }

  lemma StepKeepsRoomy(s: Session, step: Step)
    requires Balanced(s) && Exclusive(s) && Roomy(s) && Enabled(s, step)
    ensures Roomy(Do(s, step))
  {
    var s' := Do(s, step);
    QueuesStayBounded(s, step);
    if Live(s') {
      StepKeepsBalance(s, step);
      SupplyWhileLive(s');
    } else if !s'.pool.PoolDown? {
      SupplyDriesUp(s, step);
    }
  }

  lemma OneMore(o: set<ChannelId>, ch: ChannelId)
    ensures |o + {ch}| <= |o| + 1
  {
    if ch in o {
      assert o + {ch} == o;
    }
  }

  lemma StepKeepsInv(s: Session, step: Step)
    requires Inv(s) && Enabled(s, step)
    ensures Inv(Do(s, step))
  {
    StepKeepsOrder(s, step);
    StepKeepsExclusive(s, step);
    StepKeepsBalance(s, step);
    StepKeepsRoomy(s, step);
  }

  lemma {:induction false} RunKeepsInv(s: Session, steps: seq<Step>)
    requires Inv(s) && Possible(s, steps)
    ensures Inv(After(s, steps))
    decreases |steps|
  {
    if steps != [] {
      StepKeepsInv(s, steps[0]);
      RunKeepsInv(Do(s, steps[0]), steps[1..]);
    }
  }

  lemma ReachableInv(steps: seq<Step>)
    requires Possible(NEW_SESSION, steps)
    ensures Inv(After(NEW_SESSION, steps))
  {
    RunKeepsInv(NEW_SESSION, steps);
  }

  /** After any interleaving of the tasks: the i-th visitor served is the i-th accepted,
      no channel serves two visitors or was found lost or broken, and while the session
      lives the ledger balances against exactly the visitors accepted and not yet paired. */
  lemma PoolAfterAnyRun(steps: seq<Step>)
    requires Possible(NEW_SESSION, steps)
    ensures var s := After(NEW_SESSION, steps);
      && |s.pairs| <= s.accepted
      && (forall i :: 0 <= i < |s.pairs| ==> s.pairs[i].v == i)
      && (forall i, j :: 0 <= i < j < |s.pairs| ==> s.pairs[i].ch != s.pairs[j].ch)
      && (forall i :: 0 <= i < |s.pairs| ==>
            && s.pairs[i].ch !in s.opening && s.pairs[i].ch !in s.lost
            && s.pairs[i].ch !in s.broken && s.pairs[i].ch !in s.queue)
      && (!s.pool.PoolDown? ==> Served(s.pairs) + Unpaired(s) == Upto(s.accepted))
      && (Live(s) ==> Underway(s) + |s.lost| == TCP_POOL_SIZE + (s.accepted - |s.pairs|))
  {
    ReachableInv(steps);
    FirstComeFirstServed(After(NEW_SESSION, steps));
    ServingChannels(After(NEW_SESSION, steps));
  }

  /** After any run the channel queue is well below its capacity, so a data channel that
      reaches a session with a handle and a pool is queued at once: its handshake never
      waits for room while it holds the registry's read guard. */
  lemma ChannelsNeverWait(steps: seq<Step>, ch: ChannelId)
    requires Possible(NEW_SESSION, steps) && ch in After(NEW_SESSION, steps).opening
    ensures var s := After(NEW_SESSION, steps);
      && |s.queue| <= 2058 < 4096 == 2 * CHAN_SIZE
      && (Enabled(s, ChannelQueued(ch)) <==> !s.handleDropped && !s.pool.PoolDown?)
  {
    ReachableInv(steps);
    RoomFor(After(NEW_SESSION, steps), ch);
  }

  lemma RoomFor(s: Session, ch: ChannelId)
    requires Roomy(s) && ch in s.opening
    ensures |s.queue| <= 2058 < 4096 == 2 * CHAN_SIZE
    ensures Enabled(s, ChannelQueued(ch)) <==> !s.handleDropped && !s.pool.PoolDown?
  {
  }

  lemma FirstComeFirstServed(s: Session)
    requires InOrder(s)
    ensures |s.pairs| <= s.accepted && forall i :: 0 <= i < |s.pairs| ==> s.pairs[i].v == i
    ensures !s.pool.PoolDown? ==> |Unpaired(s)| == s.accepted - |s.pairs|
  {
    assert Served(s.pairs) <= Upto(s.accepted);
    assert !s.pool.PoolDown? ==> |Served(s.pairs) + Unpaired(s)| == s.accepted;
  }

  lemma ServingChannels(s: Session)
    requires Exclusive(s)
    ensures forall i, j :: 0 <= i < j < |s.pairs| ==> s.pairs[i].ch != s.pairs[j].ch
    ensures forall i :: 0 <= i < |s.pairs| ==>
      s.pairs[i].ch !in s.opening && s.pairs[i].ch !in s.lost && s.pairs[i].ch !in s.broken && s.pairs[i].ch !in s.queue
  {
    assert forall i :: 0 <= i < |s.pairs| ==> Arrived(s)[i] == s.pairs[i].ch;
    forall i, ch | 0 <= i < |s.pairs| && ch in s.queue ensures s.pairs[i].ch != ch {
      var k :| 0 <= k < |s.queue| && s.queue[k] == ch;
      assert Arrived(s)[|Serving(s.pairs)| + |Held(s.pool)| + k] == ch;
    }
  }

  /** A visitor once paired stays paired with the same channel, whatever happens. */
  lemma {:induction false} PairsOnlyGrow(s: Session, steps: seq<Step>)
    requires Possible(s, steps)
    ensures s.pairs <= After(s, steps).pairs
    decreases |steps|
  {
    if steps != [] {
      PairsOnlyGrow(Do(s, steps[0]), steps[1..]);
    }
  }

  // ----- Progress -----

  /** The steps that carry requests, commands, channels and visitors forward. */
  predicate Helpful(step: Step) {
    step.HandOver? || step.TakeVisitor? || step.TakeChannel? || step.StartOk?
    || step.TakeRequest? || step.WriteOk? || step.ReadCommand? || step.ChannelQueued?
  }

  /** Steps that push work back: a broken channel, or a heartbeat getting in the way. */
  predicate Setback(step: Step) {
    step.StartBroken? || step.Beat?
  }

  predicate Up(s: Session) {
    Live(s) && !s.handleDropped
  }

  /** While a visitor waits and fewer channels have been lost than the pool size plus the
      visitors waiting, some task can take a helpful step. */
  lemma PipelineMoves(s: Session) returns (step: Step)
    requires Inv(s) && Up(s) && Unpaired(s) != []
    requires |s.lost| < TCP_POOL_SIZE + |Unpaired(s)|
    ensures Helpful(step) && Enabled(s, step)
  {
    if s.control.Writing? {
      step := WriteOk;
    } else if s.requests > 0 {
      step := TakeRequest;
    } else if s.wire != [] {
      step := ReadCommand;
    } else if s.pool.Starting? {
      step := StartOk;
    } else if s.pool.WaitingVisitor? {
      step := if s.visitors != [] then TakeVisitor else HandOver;
    } else if s.queue != [] {
      step := TakeChannel;
    } else {
      assert |s.opening| > 0;
      var ch :| ch in s.opening;
      step := ChannelQueued(ch);
    }
  }

  /** How much work is left: each stage a request or a visitor still has to pass counts. */
  function Weight(s: Session): nat {
    6 * s.requests
    + (match s.control case Writing(CreateDataChannel) => 5 case Writing(HeartBeat) => 2 case _ => 0)
    + |s.wire| + 3 * Creates(s.wire)
    + 3 * |s.opening| + 2 * |s.queue| + |Held(s.pool)|
    + |InPool(s.pool)| + 2 * |s.visitors| + 3 * |AtListener(s.listener)|
  }

  lemma WriteWeight(s: Session)
    requires Enabled(s, WriteOk)
    ensures Weight(Do(s, WriteOk)) == Weight(s) - 1
  {
    CreatesLast(s.wire, s.control.cmd);
  }

  lemma ReadWeight(s: Session)
    requires Enabled(s, ReadCommand)
    ensures Weight(Do(s, ReadCommand)) <= Weight(s) - 1
  {
    var s' := Do(s, ReadCommand);
    CreatesHead(s.wire);
    OneMore(s.opening, s.started);
    assert |s'.wire| == |s.wire| - 1;
    if s.wire[0].HeartBeat? {
      assert Creates(s'.wire) == Creates(s.wire) && s'.opening == s.opening;
    } else {
      assert Creates(s'.wire) == Creates(s.wire) - 1 && |s'.opening| <= |s.opening| + 1;
    }
  }

  lemma HandsWeight(s: Session, step: Step)
    requires Enabled(s, step)
    requires step.HandOver? || step.TakeVisitor? || step.TakeChannel? || step.StartOk? || step.TakeRequest?
    ensures Weight(Do(s, step)) <= Weight(s) - 1
  {
  }

  /** A helpful step, or losing a channel, uses up some of the work left; a setback adds
      at most five units. */
  lemma StepWeight(s: Session, step: Step)
    requires Enabled(s, step)
    requires Helpful(step) || step.ChannelLost? || Setback(step)
    ensures Weight(Do(s, step)) <= if Setback(step) then Weight(s) + 5 else Weight(s) - 1
  {
    if step.WriteOk? {
      WriteWeight(s);
    } else if step.ReadCommand? {
      ReadWeight(s);
    } else if Helpful(step) && !step.ChannelQueued? {
      HandsWeight(s, step);
    }
  }

  function Setbacks(steps: seq<Step>): nat {
    if steps == [] then 0 else (if Setback(steps[0]) then 1 else 0) + Setbacks(steps[1..])
  }

  /** A run with no new visitors in which the session stays up. */
  ghost predicate Settling(steps: seq<Step>) {
    forall step :: step in steps ==> Helpful(step) || step.ChannelLost? || Setback(step)
  }

  lemma SettlingKeepsUp(s: Session, step: Step)
    requires Up(s) && Enabled(s, step) && (Helpful(step) || step.ChannelLost? || Setback(step))
    ensures Up(Do(s, step)) && Do(s, step).accepted == s.accepted
  {
  }

  /** Every such run is bounded by the work left at its start and the setbacks it meets. */
  lemma {:induction false} SettlingIsBounded(s: Session, steps: seq<Step>)
    requires Up(s) && Possible(s, steps) && Settling(steps)
    ensures |steps| + Weight(After(s, steps)) <= Weight(s) + 6 * Setbacks(steps)
    ensures Up(After(s, steps)) && After(s, steps).accepted == s.accepted
    decreases |steps|
  {
    if steps != [] {
      StepWeight(s, steps[0]);
      SettlingKeepsUp(s, steps[0]);
      SettlingIsBounded(Do(s, steps[0]), steps[1..]);
    }
  }

  /** So a session that is left alone settles: when no helpful step is left, either every
      visitor ever accepted is paired, or as many channels have been lost as the pool
      size plus the visitors still waiting. */
  lemma SettledSession(s: Session, steps: seq<Step>)
    requires Inv(s) && Up(s) && Possible(s, steps) && Settling(steps)
    requires forall step :: Helpful(step) ==> !Enabled(After(s, steps), step)
    ensures |steps| <= Weight(s) + 6 * Setbacks(steps)
    ensures var s' := After(s, steps);
      || Served(s'.pairs) == Upto(s.accepted)
      || |s'.lost| == TCP_POOL_SIZE + |Unpaired(s')|
  {
    SettlingIsBounded(s, steps);
    RunKeepsInv(s, steps);
    var s' := After(s, steps);
    if Unpaired(s') != [] && |s'.lost| != TCP_POOL_SIZE + |Unpaired(s')| {
      var step := PipelineMoves(s');
      assert false;
    }
  }

  lemma HelpKeepsWaiting(s: Session, step: Step)
    requires Enabled(s, step) && Helpful(step)
    ensures var s' := Do(s, step);
      && s'.lost == s.lost
      && |s'.pairs| == |s.pairs| + (if step.StartOk? then 1 else 0)
      && |Unpaired(s')| == |Unpaired(s)| - (if step.StartOk? then 1 else 0)
  {
  }

  /** Below the loss bound the oldest waiting visitor can still be paired, by helpful
      steps alone. */
  lemma {:induction false} CanStillPair(s: Session) returns (steps: seq<Step>)
    requires Inv(s) && Up(s) && Unpaired(s) != []
    requires |s.lost| < TCP_POOL_SIZE + |Unpaired(s)|
    ensures Possible(s, steps) && (forall step :: step in steps ==> Helpful(step))
    ensures |After(s, steps).pairs| == |s.pairs| + 1
    decreases Weight(s)
  {
    var step := PipelineMoves(s);
    var s' := Do(s, step);
    HelpKeepsWaiting(s, step);
    if step.StartOk? {
      steps := [step];
    } else {
      StepWeight(s, step);
      StepKeepsInv(s, step);
      SettlingKeepsUp(s, step);
      var rest := CanStillPair(s');
      steps := [step] + rest;
      assert steps[1..] == rest;
    }
  }

  lemma StepKeepsStarved(s: Session, step: Step)
    requires Underway(s) == 0 && Enabled(s, step) && !step.Accept?
    ensures Do(s, step).pairs == s.pairs && Underway(Do(s, step)) == 0
  {
    if step.WriteOk? {
      CreatesLast(s.wire, s.control.cmd);
    } else if step.ReadCommand? {
      CreatesHead(s.wire);
    }
  }

  /** At the loss bound nothing is underway, and without a new visitor nobody is paired
      any more, in any run at all. */
  lemma {:induction false} StarvedForGood(s: Session, steps: seq<Step>)
    requires Underway(s) == 0 && Possible(s, steps) && Accept !in steps
    ensures After(s, steps).pairs == s.pairs && Underway(After(s, steps)) == 0
    decreases |steps|
  {
    if steps != [] {
      StepKeepsStarved(s, steps[0]);
      StarvedForGood(Do(s, steps[0]), steps[1..]);
    }
  }

  /** The loss bound is exact: with a visitor waiting in a session that is up, some run
      without a new visitor pairs one if and only if fewer channels have been lost than
      the pool size plus the visitors waiting. */
  lemma PairableExactlyBelowBound(s: Session)
    requires Inv(s) && Up(s) && Unpaired(s) != []
    ensures (exists steps :: Possible(s, steps) && Accept !in steps && |After(s, steps).pairs| > |s.pairs|)
      <==> |s.lost| < TCP_POOL_SIZE + |Unpaired(s)|
  {
    if |s.lost| < TCP_POOL_SIZE + |Unpaired(s)| {
      var steps := CanStillPair(s);
      assert Accept !in steps;
    } else {
      forall steps | Possible(s, steps) && Accept !in steps ensures |After(s, steps).pairs| <= |s.pairs| {
        StarvedForGood(s, steps);
      }
    }
  }

  // ----- What the steps of a run did -----

  datatype Task = ListenerTask | PoolTask | ControlTask

  predicate Of(task: Task, step: Step) {
    match task
    case ListenerTask => OfListener(step)
    case PoolTask => OfPool(step)
    case ControlTask => OfControl(step)
  }

  predicate Down(task: Task, s: Session) {
    match task
    case ListenerTask => s.listener.ListenerDown?
    case PoolTask => s.pool.PoolDown?
    case ControlTask => s.control.ControlDown?
  }

  /** The steps that break out of a task's loop. */
  predicate Ends(task: Task, step: Step) {
    match task
    case ListenerTask => step == ListenerStop || step == AcceptRefused
    case PoolTask => step == VisitorsClosed || step == ChannelsClosed || step == StartBrokenDown
    case ControlTask => step == ControlStop || step == WriteFail
  }

  ghost predicate SomeEnds(task: Task, steps: seq<Step>) {
    exists step :: step in steps && Ends(task, step)
  }

  lemma EndsFirst(task: Task, steps: seq<Step>)
    requires steps != []
    ensures SomeEnds(task, steps) <==> Ends(task, steps[0]) || SomeEnds(task, steps[1..])
  {
    assert forall x :: x in steps <==> x == steps[0] || x in steps[1..];
  }

  lemma ListenerEnds(s: Session, step: Step)
    requires Enabled(s, step)
    ensures Down(ListenerTask, Do(s, step)) <==> Down(ListenerTask, s) || Ends(ListenerTask, step)
  {
  }

  lemma PoolEnds(s: Session, step: Step)
    requires Enabled(s, step)
    ensures Down(PoolTask, Do(s, step)) <==> Down(PoolTask, s) || Ends(PoolTask, step)
  {
  }

  lemma ControlEnds(s: Session, step: Step)
    requires Enabled(s, step)
    ensures Down(ControlTask, Do(s, step)) <==> Down(ControlTask, s) || Ends(ControlTask, step)
  {
  }

  lemma EndingStep(task: Task, s: Session, step: Step)
    requires Enabled(s, step)
    ensures Down(task, Do(s, step)) <==> Down(task, s) || Ends(task, step)
  {
    match task
    case ListenerTask => ListenerEnds(s, step);
    case PoolTask => PoolEnds(s, step);
    case ControlTask => ControlEnds(s, step);
  }

  /** A task is down exactly if some step broke out of its loop. */
  lemma {:induction false} DownExactly(task: Task, s: Session, steps: seq<Step>)
    requires Possible(s, steps)
    ensures Down(task, After(s, steps)) <==> Down(task, s) || SomeEnds(task, steps)
    decreases |steps|
  {
    if steps != [] {
      EndingStep(task, s, steps[0]);
      EndsFirst(task, steps);
      DownExactly(task, Do(s, steps[0]), steps[1..]);
    }
  }

  lemma {:induction false} DownIsOver(task: Task, s: Session, steps: seq<Step>, j: nat)
    requires Possible(s, steps) && Down(task, s) && j < |steps|
    ensures !Of(task, steps[j])
    decreases j
  {
    if j > 0 {
      DownIsOver(task, Do(s, steps[0]), steps[1..], j - 1);
    }
  }

  /** A task whose loop is left takes no step any more: no command is written, no visitor
      accepted and none paired. */
  lemma {:induction false} StoppedIsOver(task: Task, s: Session, steps: seq<Step>, i: nat, j: nat)
    requires Possible(s, steps) && i < j < |steps| && Ends(task, steps[i])
    ensures !Of(task, steps[j])
    decreases i
  {
    if i > 0 {
      StoppedIsOver(task, Do(s, steps[0]), steps[1..], i - 1, j - 1);
    } else {
      DownIsOver(task, Do(s, steps[0]), steps[1..], j - 1);
    }
  }

  function Count(steps: seq<Step>, step: Step): nat {
    if steps == [] then 0 else One(steps[0], step) + Count(steps[1..], step)
  }

  function One(taken: Step, step: Step): nat {
    if taken == step then 1 else 0
  }

  lemma StepAdds(s: Session, step: Step)
    requires Enabled(s, step)
    ensures var s' := Do(s, step);
      && (s'.handleDropped <==> s.handleDropped || step == DropHandle)
      && s'.accepted == s.accepted + One(step, Accept)
      && |s'.pairs| == |s.pairs| + One(step, StartOk)
      && s'.requests + One(step, TakeRequest) == s.requests + One(step, Accept) + One(step, StartBroken)
  {
  }

  lemma StepMoves(s: Session, step: Step, ch: ChannelId)
    requires Enabled(s, step)
    ensures var s' := Do(s, step);
      && |s'.wire| + One(step, ReadCommand) == |s.wire| + One(step, WriteOk)
      && |s'.visitors| + One(step, TakeVisitor) == |s.visitors| + One(step, HandOver)
      && (ch in s'.lost <==> ch in s.lost || step == ChannelLost(ch))
  {
  }

  /** Every quantity of a session is what the steps of its run add up to. */
  lemma {:induction false} Tally(s: Session, steps: seq<Step>, ch: ChannelId)
    requires Possible(s, steps)
    ensures var s' := After(s, steps);
      && (s'.handleDropped <==> s.handleDropped || DropHandle in steps)
      && s'.accepted == s.accepted + Count(steps, Accept)
      && |s'.pairs| == |s.pairs| + Count(steps, StartOk)
      && s'.requests + Count(steps, TakeRequest) == s.requests + Count(steps, Accept) + Count(steps, StartBroken)
      && |s'.wire| + Count(steps, ReadCommand) == |s.wire| + Count(steps, WriteOk)
      && |s'.visitors| + Count(steps, TakeVisitor) == |s.visitors| + Count(steps, HandOver)
      && (ch in s'.lost <==> ch in s.lost || ChannelLost(ch) in steps)
    decreases |steps|
  {
    if steps != [] {
      StepAdds(s, steps[0]);
      StepMoves(s, steps[0], ch);
      Tally(Do(s, steps[0]), steps[1..], ch);
      assert forall x :: x in steps <==> x == steps[0] || x in steps[1..];
    }
  }

  /** The commands the control channel has taken up and the client has not read. */
  function Pipe(s: Session): seq<Command> {
    s.wire + if s.control.Writing? then [s.control.cmd] else []
  }

  /** The command a step takes up: one per request, and one per heartbeat due. */
  function CommandOf(step: Step): seq<Command> {
    if step.TakeRequest? then [CreateDataChannel] else if step.Beat? then [HeartBeat] else []
  }

  function CommandsOf(steps: seq<Step>): seq<Command> {
    if steps == [] then [] else CommandOf(steps[0]) + CommandsOf(steps[1..])
  }

  lemma StepCommands(s: Session, step: Step)
    requires Enabled(s, step) && step != WriteFail
    ensures step != ReadCommand ==> Pipe(Do(s, step)) == Pipe(s) + CommandOf(step) && Do(s, step).started == s.started
    ensures step == ReadCommand ==>
      && Pipe(s) == [s.wire[0]] + Pipe(Do(s, step))
      && Do(s, step).started == s.started + if s.wire[0].CreateDataChannel? then 1 else 0
  {
  }

  lemma Associate<T>(a: seq<T>, b: seq<T>, c: seq<T>)
    ensures (a + b) + c == a + (b + c)
  {
  }

  lemma ReadOneMore(c: Command, later: seq<Command>, read: nat)
    requires read <= |later|
    ensures ([c] + later)[read + 1..] == later[read..]
    ensures Creates(([c] + later)[..read + 1]) == (if c.CreateDataChannel? then 1 else 0) + Creates(later[..read])
  {
    var first := ([c] + later)[..read + 1];
    CreatesHead(first);
    assert first[0] == c && first[1..] == later[..read];
  }

  /** What the commands taken up add to the pipe, oldest first. */
  lemma FirstCommands(s: Session, steps: seq<Step>)
    requires steps != [] && Enabled(s, steps[0]) && steps[0] != WriteFail
    ensures Pipe(s) + CommandsOf(steps) ==
      (if steps[0] == ReadCommand then [s.wire[0]] else []) + (Pipe(Do(s, steps[0])) + CommandsOf(steps[1..]))
  {
    StepCommands(s, steps[0]);
    if steps[0] == ReadCommand {
      Associate([s.wire[0]], Pipe(Do(s, steps[0])), CommandsOf(steps[1..]));
      assert CommandsOf(steps) == CommandsOf(steps[1..]);
    } else {
      Associate(Pipe(s), CommandOf(steps[0]), CommandsOf(steps[1..]));
    }
  }

  /** As long as no write fails, the client reads the commands taken up in their order, none
      skipped and none twice, and starts one data channel for each CreateDataChannel. */
  lemma {:induction false} CommandsInOrder(s: Session, steps: seq<Step>)
    requires Possible(s, steps) && WriteFail !in steps
    ensures var all, read := Pipe(s) + CommandsOf(steps), Count(steps, ReadCommand);
      && read <= |all| && Pipe(After(s, steps)) == all[read..]
      && After(s, steps).started == s.started + Creates(all[..read])
    decreases |steps|
  {
    if steps != [] {
      var s', rest := Do(s, steps[0]), steps[1..];
      StepCommands(s, steps[0]);
      FirstCommands(s, steps);
      CommandsInOrder(s', rest);
      if steps[0] == ReadCommand {
        ReadOneMore(s.wire[0], Pipe(s') + CommandsOf(rest), Count(rest, ReadCommand));
      } else {
        assert Pipe(s) + CommandsOf(steps) == Pipe(s') + CommandsOf(rest);
      }
    }
  }

  /** Where a channel that was started can be. */
  predicate Somewhere(s: Session, ch: ChannelId) {
    ch in s.opening || ch in s.lost || ch in s.broken || ch in Arrived(s)
  }

  lemma PoolLosesNone(s: Session, step: Step, ch: ChannelId)
    requires Enabled(s, step) && OfPool(step) && Somewhere(s, ch)
    ensures Somewhere(Do(s, step), ch)
  {
    var s' := Do(s, step);
    if step.StartBroken? || step.StartBrokenDown? {
      assert Arrived(s) == Serving(s.pairs) + [s.pool.ch] + s.queue;
    } else if step.StartOk? {
      PairingKeepsArrived(s);
    } else {
      assert Arrived(s') == Arrived(s);
    }
  }

  lemma OthersLoseNone(s: Session, step: Step, ch: ChannelId)
    requires Enabled(s, step) && !OfPool(step)
    requires Somewhere(s, ch) || (step.ReadCommand? && ch == s.started < Do(s, step).started)
    ensures Somewhere(Do(s, step), ch)
  {
    var s' := Do(s, step);
    if step.ChannelQueued? {
      assert Arrived(s') == Arrived(s) + [step.ch];
    } else {
      assert Arrived(s') == Arrived(s);
    }
  }

  lemma {:induction false} NoChannelVanishes(s: Session, steps: seq<Step>, ch: ChannelId)
    requires Possible(s, steps) && (forall c: ChannelId :: c < s.started ==> Somewhere(s, c))
    requires ch < After(s, steps).started
    ensures Somewhere(After(s, steps), ch)
    decreases |steps|
  {
    if steps != [] {
      forall c: ChannelId | c < Do(s, steps[0]).started ensures Somewhere(Do(s, steps[0]), c) {
        if OfPool(steps[0]) {
          PoolLosesNone(s, steps[0], c);
        } else {
          OthersLoseNone(s, steps[0], c);
        }
      }
      NoChannelVanishes(Do(s, steps[0]), steps[1..], ch);
    }
  }

  /** After any run a data channel was started exactly if it is opening, lost, found broken,
      serving, in the pool's hands or queued; by PoolAfterAnyRun it is in one place only. */
  lemma EveryChannelHasAPlace(steps: seq<Step>, ch: ChannelId)
    requires Possible(NEW_SESSION, steps)
    ensures ch < After(NEW_SESSION, steps).started <==> Somewhere(After(NEW_SESSION, steps), ch)
  {
    ReachableInv(steps);
    if ch < After(NEW_SESSION, steps).started {
      NoChannelVanishes(NEW_SESSION, steps, ch);
    }
  }

  // ----- Shutting down -----

  /** What the tasks still do once the handle is gone, short of failures and new visitors. */
  predicate Closing(step: Step) {
    step == ListenerStop || step == HandOver || step == HandOverDropped
    || step == TakeVisitor || step == VisitorsClosed || step == TakeChannel || step == ChannelsClosed || step == StartOk
    || step == WriteOk || step == ControlStop
  }

  predicate AllDown(s: Session) {
    s.listener.ListenerDown? && s.pool.PoolDown? && s.control.ControlDown?
  }

  function LeftToClose(s: Session): nat {
    (match s.listener case Handing(_) => 6 case Listening => 1 case ListenerDown => 0)
    + 4 * |s.visitors|
    + (match s.pool case WaitingChannel(_) => 4 case Starting(_, _) => 3 case WaitingVisitor => 1 case PoolDown => 0)
    + (match s.control case Writing(_) => 2 case Selecting => 1 case ControlDown => 0)
  }

  /** With the handle gone, some task can close down further until all have. */
  lemma ClosingMoves(s: Session) returns (step: Step)
    requires s.handleDropped && !AllDown(s)
    ensures Closing(step) && Enabled(s, step)
  {
    if s.control.Writing? {
      step := WriteOk;
    } else if s.control.Selecting? {
      step := ControlStop;
    } else if s.listener.Listening? {
      step := ListenerStop;
    } else if s.pool.PoolDown? {
      step := HandOverDropped;
    } else if s.pool.Starting? {
      step := StartOk;
    } else if s.pool.WaitingChannel? {
      step := if s.queue != [] then TakeChannel else ChannelsClosed;
    } else if s.visitors != [] {
      step := TakeVisitor;
    } else {
      step := if s.listener.Handing? then HandOver else VisitorsClosed;
    }
  }

  lemma ClosingUsesUp(s: Session, step: Step)
    requires s.handleDropped && Enabled(s, step) && Closing(step)
    ensures LeftToClose(Do(s, step)) < LeftToClose(s) && Do(s, step).handleDropped
  {
  }

  /** So a session whose handle was dropped winds down, in whatever state that found it:
      the tasks take at most so many closing steps, and when none is left to take, the
      listener, the pool and the control channel are all down. */
  lemma {:induction false} ShutdownEnds(s: Session, steps: seq<Step>)
    requires s.handleDropped && Possible(s, steps) && forall x :: x in steps ==> Closing(x)
    ensures |steps| + LeftToClose(After(s, steps)) <= LeftToClose(s)
    ensures AllDown(After(s, steps)) || exists step :: Closing(step) && Enabled(After(s, steps), step)
    decreases |steps|
  {
    if steps != [] {
      ClosingUsesUp(s, steps[0]);
      ShutdownEnds(Do(s, steps[0]), steps[1..]);
    } else if !AllDown(s) {
      var step := ClosingMoves(s);
    }
  }

  /** A run to the end of it, with no visitor accepted. */
  lemma {:induction false} WindsDown(s: Session) returns (steps: seq<Step>)
    requires s.handleDropped
    ensures Possible(s, steps) && AllDown(After(s, steps)) && Accept !in steps
    decreases LeftToClose(s)
  {
    if AllDown(s) {
      steps := [];
    } else {
      var step := ClosingMoves(s);
      ClosingUsesUp(s, step);
      var rest := WindsDown(Do(s, step));
      steps := [step] + rest;
      assert steps[1..] == rest;
    }
  }

  // ----- The tasks themselves, updating one session in place -----

  /** The queues and task positions of one session. Each turn method runs one task from
      an await to the next; its parameters say what the outside did: whether a visitor
      or the shutdown signal was seen, whether a timer fired, whether a write went through. */
  class TcpSession {
    var handleDropped: bool
    var requests: nat
    var listener: Listener
    var visitors: seq<VisitorId>
    var pool: Pool
    var control: Control
    var wire: seq<Command>
    var opening: set<ChannelId>
    var lost: set<ChannelId>
    var queue: seq<ChannelId>
    var broken: set<ChannelId>
    var pairs: seq<Pair>
    var accepted: nat
    var started: nat

    ghost function View(): Session
      reads this
    {
      Session(handleDropped, requests, listener, visitors, pool, control, wire, opening, lost, queue, broken, pairs,
              accepted, started)
    }

    constructor ()
      ensures View() == NEW_SESSION && requests == 8
    {
      handleDropped, requests, accepted, started := false, 0, 0, 0;
      listener, pool, control := Listening, WaitingVisitor, Selecting;
      visitors, wire, queue, pairs := [], [], [], [];
      opening, lost, broken := {}, {}, {};
      new;
      for i := 0 to TCP_POOL_SIZE
        invariant View() == NEW_SESSION.(requests := i)
      {
        requests := requests + 1;
      }
    }

    /** The task took `step`, or it is blocked and nothing changed. */
    twostate predicate Took(moved: bool, step: Step)
      reads this
    {
      if moved then Enabled(old(View()), step) && View() == Do(old(View()), step) else View() == old(View())
    }

    /** The loop of `tcp_listen_and_send`. */
    method ListenerTurn(incoming: bool, shutdownSeen: bool) returns (moved: bool, ghost step: Step)
      modifies this
      ensures Took(moved, step) && (moved ==> OfListener(step))
      ensures moved ==> (step.ListenerStop? <==> old(listener.Listening? && handleDropped) && shutdownSeen)
      ensures !moved && incoming ==> forall x :: OfListener(x) ==> !Enabled(old(View()), x)
    {
      moved, step := true, Accept;
      match listener
      case Listening =>
        if handleDropped && shutdownSeen {
          listener, step := ListenerDown, ListenerStop;
        } else if !incoming {
          moved := false;
        } else if control.ControlDown? {
          listener, step := ListenerDown, AcceptRefused;
        } else {
          requests := requests + 1;
          listener := Handing(accepted);
          accepted := accepted + 1;
        }
      case Handing(v) =>
        if pool.PoolDown? {
          listener, step := Listening, HandOverDropped;
        } else if |visitors| < CHAN_SIZE {
          visitors, listener, step := visitors + [v], Listening, HandOver;
        } else {
          moved := false;
        }
      case ListenerDown =>
        moved := false;
    }

    /** The loops of `run_tcp_connection_pool`. */
    method PoolTurn(writeOk: bool) returns (moved: bool, ghost step: Step)
      modifies this
      ensures Took(moved, step) && (moved ==> OfPool(step))
      ensures moved && old(pool.Starting?) ==> (step.StartOk? <==> writeOk)
      ensures !moved ==> forall x :: OfPool(x) ==> !Enabled(old(View()), x)
    {
      moved, step := true, TakeVisitor;
      match pool
      case WaitingVisitor =>
        if visitors != [] {
          pool, visitors := WaitingChannel(visitors[0]), visitors[1..];
        } else if listener.ListenerDown? {
          pool, step := PoolDown, VisitorsClosed;
        } else {
          moved := false;
        }
      case WaitingChannel(v) =>
        if queue != [] {
          pool, queue, step := Starting(v, queue[0]), queue[1..], TakeChannel;
        } else if handleDropped {
          pool, step := PoolDown, ChannelsClosed;
        } else {
          moved := false;
        }
      case Starting(v, ch) =>
        if writeOk {
          pairs, pool, step := pairs + [Pair(v, ch)], WaitingVisitor, StartOk;
        } else {
          broken := broken + {ch};
          if control.ControlDown? {
            pool, step := PoolDown, StartBrokenDown;
          } else {
            requests, pool, step := requests + 1, WaitingChannel(v), StartBroken;
          }
        }
      case PoolDown =>
        moved := false;
    }

    /** The loop of `ControlChannel::run`. */
    method ControlTurn(timer: bool, shutdownSeen: bool, writeOk: bool) returns (moved: bool, ghost step: Step)
      modifies this
      ensures Took(moved, step)
      ensures moved ==>
        var stop := old(handleDropped) && shutdownSeen;
        match step
        case Beat => timer && !stop
        case TakeRequest => !timer && !stop
        case ControlStop => stop || (!timer && old(requests) == 0)
        case WriteOk => writeOk
        case WriteFail => !writeOk
        case _ => false
      ensures !moved ==> !Enabled(old(View()), TakeRequest) && !Enabled(old(View()), WriteOk)
      ensures !moved && timer ==> !Enabled(old(View()), Beat)
      ensures !moved && shutdownSeen ==> !Enabled(old(View()), ControlStop)
    {
      moved, step := true, Beat;
      match control
      case Selecting =>
        if handleDropped && shutdownSeen {
          control, step := ControlDown, ControlStop;
        } else if timer {
          control := Writing(HeartBeat);
        } else if requests > 0 {
          requests, control, step := requests - 1, Writing(CreateDataChannel), TakeRequest;
        } else if listener.ListenerDown? && pool.PoolDown? {
          control, step := ControlDown, ControlStop;
        } else {
          moved := false;
        }
      case Writing(cmd) =>
        if writeOk {
          wire, control, step := wire + [cmd], Selecting, WriteOk;
        } else {
          control, step := ControlDown, WriteFail;
        }
      case ControlDown =>
        moved := false;
    }

    /** The client reads one command and starts a data channel for it. */
    method ClientTurn() returns (moved: bool, ghost step: Step)
      modifies this
      ensures Took(moved, step) && step == ReadCommand && (moved <==> old(wire) != [])
    {
      moved, step := wire != [], ReadCommand;
      if moved {
        if wire[0].CreateDataChannel? {
          opening, started := opening + {started}, started + 1;
        }
        wire := wire[1..];
      }
    }

    /** `do_data_channel_handshake`: a channel that made it to the server is queued for the
        pool, waits while the queue is full, or is lost. */
    method ChannelTurn(ch: ChannelId, reached: bool) returns (moved: bool, ghost step: Step)
      requires ch in opening
      modifies this
      ensures Took(moved, step)
      ensures moved ==>
        step == if reached && !handleDropped && !pool.PoolDown? then ChannelQueued(ch) else ChannelLost(ch)
      ensures !moved <==> reached && !handleDropped && !pool.PoolDown? && |old(queue)| == |queue| >= 2 * CHAN_SIZE
    {
      moved, step := true, ChannelLost(ch);
      if reached && !handleDropped && !pool.PoolDown? {
        if |queue| < 2 * CHAN_SIZE {
          opening, queue, step := opening - {ch}, queue + [ch], ChannelQueued(ch);
        } else {
          moved := false;
        }
      } else {
        opening, lost := opening - {ch}, lost + {ch};
      }
    }

    /** The registry lets go of the handle. */
    method Drop()
      requires !handleDropped
      modifies this`handleDropped
      ensures View() == Do(old(View()), DropHandle)
    {
      handleDropped := true;
    }

    method PerformControl(step: Step)
      requires Enabled(View(), step) && OfControl(step)
      modifies this
      ensures View() == Do(old(View()), step)
    {
      var moved;
      ghost var took;
      moved, took := ControlTurn(step.Beat?, step.ControlStop?, step.WriteOk?);
      assert moved && took == step;
    }

    /** Whatever step is possible, some task's code takes it when the outside plays along. */
    method Perform(step: Step)
      requires Enabled(View(), step)
      modifies this
      ensures View() == Do(old(View()), step)
    {
      var moved;
      ghost var took := step;
      if OfListener(step) {
        moved, took := ListenerTurn(true, step.ListenerStop?);
      } else if OfPool(step) {
        moved, took := PoolTurn(step.StartOk?);
      } else if step.ReadCommand? {
        moved, took := ClientTurn();
      } else if step.ChannelQueued? || step.ChannelLost? {
        moved, took := ChannelTurn(step.ch, step.ChannelQueued?);
      } else if step.DropHandle? {
        Drop();
      } else {
        PerformControl(step);
      }
      assert took == step;
    }

    /** The tasks' code run in any order they allow: the session ends where the run does,
        and so keeps what every run keeps. */
    static method Run(steps: seq<Step>) returns (t: TcpSession)
      requires Possible(NEW_SESSION, steps)
      ensures fresh(t) && t.View() == After(NEW_SESSION, steps) && Inv(t.View())
    {
      t := new TcpSession();
      for n := 0 to |steps|
        invariant fresh(t) && Possible(t.View(), steps[n..])
        invariant After(t.View(), steps[n..]) == After(NEW_SESSION, steps)
      {
        assert steps[n..][1..] == steps[n + 1..];
        t.Perform(steps[n]);
      }
      ReachableInv(steps);
    }
  }
}
