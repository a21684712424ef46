/** The client's end of a UDP data channel: the loop of `run_data_channel_for_udp`, which
    finds or starts a forwarder for each visitor, the forwarders of `run_udp_forwarder`,
    which take themselves off the shared port map, and the task that writes the replies
    out. Steps run from one await to the next; the port map's lock serves requests in
    order, so a reader waits behind a writer that is already queued. */
module UdpForwarders {
  import opened Basics
  import opened UdpFraming

  const UDP_SENDQ_SIZE: nat := 1024

  /** At its select; waiting for a slot of the outbound queue with a reply in hand; queued
      for the write lock to remove itself; or gone, by an error return or after removing
      itself. */
  datatype Life = Running | Replying(data: Bytes) | Queued | Gone(byError: bool)

  /** `openedBy` is the packet that started the forwarder; `sent` is what it passed on to
      its service, `answers` what it read from there. */
  datatype Forwarder = Forwarder(
    addr: SocketAddr,
    openedBy: nat,
    life: Life,
    inbox: seq<Bytes>,
    sent: seq<Bytes>,
    answers: seq<Bytes>)

  /** A frame on its way back and the forwarder it came from. */
  type Reply = (nat, UdpTraffic)

  /** The task that writes replies to the connection: waiting for one, writing one, or
      ended by a failed write. */
  datatype Writer = Idle | Writing(frame: Reply) | WriterDown

  /** Where the main loop is with its current packet. Between its two lookups it still
      holds the read guard of the first, unless it had to drop it to start a forwarder. */
  datatype Main =
    | Reading
    | FirstLookup
    | WantsWrite
    | Connecting
    | SecondLookup(guardHeld: bool)
    | Delivering(f: nat)
    | Stopped

  datatype State = State(
    packets: seq<UdpTraffic>,
    main: Main,
    portMap: map<SocketAddr, nat>,
    forwarders: seq<Forwarder>,
    outbound: seq<Reply>, // at most UDP_SENDQ_SIZE
    writer: Writer,
    written: seq<Reply>)

  const START: State := State([], Reading, map[], [], [], Idle, [])

  datatype Step =
    | Packet(t: UdpTraffic)
    | StreamEnds
    | LookFirst
    | TakeWrite
    | Connect(ok: bool)
    | LookSecond
    | Deliver
    | ToService(f: nat, ok: bool)
    | FromService(f: nat, data: Bytes)
    | QueueReply(f: nat)
    | Quit(f: nat)
    | Remove(f: nat)
    | TakeOut
    | WriteOut(ok: bool)

  function Current(s: State): UdpTraffic
    requires s.packets != []
  {
    s.packets[|s.packets| - 1]
  }

  /** Some guard of the port map is held by the main loop. */
  predicate MainHolds(m: Main) {
    m.Connecting? || (m.SecondLookup? && m.guardHeld) || m.Delivering?
  }

  ghost predicate SomeQueued(s: State) {
    exists f :: 0 <= f < |s.forwarders| && s.forwarders[f].life == Queued
  }

  predicate Unfinished(f: Forwarder) {
    !f.life.Gone?
  }

  predicate IsRunning(s: State, f: nat) {
    f < |s.forwarders| && s.forwarders[f].life == Running
  }

  ghost predicate Enabled(s: State, step: Step) {
    match step
    case Packet(t) => s.main == Reading
    case StreamEnds => s.main == Reading
    case LookFirst => s.main == FirstLookup && s.packets != [] && !SomeQueued(s)
    case TakeWrite => s.main == WantsWrite
    case Connect(_) => s.main == Connecting && s.packets != []
    case LookSecond => s.main.SecondLookup? && s.packets != [] && !SomeQueued(s)
    case Deliver =>
      s.main.Delivering? && s.packets != [] && s.main.f < |s.forwarders|
      && (Unfinished(s.forwarders[s.main.f]) ==> |s.forwarders[s.main.f].inbox| < UDP_SENDQ_SIZE)
    case ToService(f, _) => IsRunning(s, f) && s.forwarders[f].inbox != []
    case FromService(f, data) => IsRunning(s, f) && |data| <= UDP_BUFFER_SIZE
    case QueueReply(f) =>
      f < |s.forwarders| && s.forwarders[f].life.Replying?
      && (s.writer.WriterDown? || |s.outbound| < UDP_SENDQ_SIZE)
    case Quit(f) => IsRunning(s, f)
    case Remove(f) => f < |s.forwarders| && s.forwarders[f].life == Queued && !MainHolds(s.main)
    case TakeOut => s.writer.Idle? && s.outbound != []
    case WriteOut(_) => s.writer.Writing?
  }

  function Put(s: State, f: nat, w: Forwarder): State
    requires f < |s.forwarders|
  {
    s.(forwarders := s.forwarders[f := w])
  }

  ghost function Do(s: State, step: Step): State
    requires Enabled(s, step)
  {
    match step
    case Packet(t) => s.(packets := s.packets + [t], main := FirstLookup)
    case StreamEnds => s.(main := Stopped)
    case LookFirst => s.(main := if Current(s).from in s.portMap then SecondLookup(true) else WantsWrite)
    case TakeWrite => s.(main := Connecting)
    case Connect(ok) =>
      if ok then
        s.(main := SecondLookup(false),
           portMap := s.portMap[Current(s).from := |s.forwarders|],
           forwarders := s.forwarders + [Forwarder(Current(s).from, |s.packets| - 1, Running, [], [], [])])
      else
        s.(main := SecondLookup(false))
    case LookSecond =>
      s.(main := if Current(s).from in s.portMap then Delivering(s.portMap[Current(s).from]) else Reading)
    case Deliver =>
      // A forwarder that is gone has dropped its receiver; the failed send is ignored.
      var w := s.forwarders[s.main.f];
      if Unfinished(w) then
        Put(s, s.main.f, w.(inbox := w.inbox + [Current(s).data])).(main := Reading)
      else
        s.(main := Reading)
    case ToService(f, ok) =>
      var w := s.forwarders[f];
      Put(s, f, if ok then w.(inbox := w.inbox[1..], sent := w.sent + [w.inbox[0]]) else w.(life := Gone(true)))
    case FromService(f, data) =>
      var w := s.forwarders[f];
      Put(s, f, w.(life := Replying(data), answers := w.answers + [data]))
    case QueueReply(f) =>
      var w := s.forwarders[f];
      // Once the writing task has ended, its receiver is gone and the send fails.
      if s.writer.WriterDown? then
        Put(s, f, w.(life := Gone(true)))
      else
        Put(s, f, w.(life := Running)).(outbound := s.outbound + [(f, UdpTraffic(w.addr, w.life.data))])
    case Quit(f) => Put(s, f, s.forwarders[f].(life := Queued))
    case Remove(f) =>
      Put(s, f, s.forwarders[f].(life := Gone(false))).(portMap := s.portMap - {s.forwarders[f].addr})
    case TakeOut => s.(writer := Writing(s.outbound[0]), outbound := s.outbound[1..])
    case WriteOut(ok) =>
      if ok then
        s.(writer := Idle, written := s.written + [s.writer.frame])
      else
        s.(writer := WriterDown, outbound := [])
  }

  ghost predicate Possible(s: State, steps: seq<Step>)
    decreases |steps|
  {
    steps == [] || (Enabled(s, steps[0]) && Possible(Do(s, steps[0]), steps[1..]))
  }

  ghost function After(s: State, steps: seq<Step>): State
    requires Possible(s, steps)
    decreases |steps|
  {
    if steps == [] then s else After(Do(s, steps[0]), steps[1..])
  }

  // ----- The port map -----

  /** The forwarder is what the port map holds for its address. */
  predicate HasEntry(s: State, f: nat)
    requires f < |s.forwarders|
  {
    s.forwarders[f].addr in s.portMap && s.portMap[s.forwarders[f].addr] == f
  }

  /** Every entry belongs to a forwarder of that address, and a forwarder has its entry
      exactly until it removes itself, which an error return never does. */
  ghost predicate Mapped(s: State) {
    && (forall x :: x in s.portMap ==> s.portMap[x] < |s.forwarders| && s.forwarders[s.portMap[x]].addr == x)
    && (forall f :: 0 <= f < |s.forwarders| ==> (HasEntry(s, f) <==> s.forwarders[f].life != Gone(false)))
  }

  /** While the main loop is about to start a forwarder there is none to find. */
  ghost predicate Placed(s: State) {
    && (!s.main.Reading? && !s.main.Stopped? ==> s.packets != [])
    && (s.main.WantsWrite? || s.main.Connecting? ==> Current(s).from !in s.portMap)
    && (s.main.Delivering? ==> s.main.f < |s.forwarders| && s.forwarders[s.main.f].addr == Current(s).from
                               && Get(s.portMap, Current(s).from) == Some(s.main.f))
  }

  // ----- Order and addresses -----

  /** The payloads of one visitor among packets `lo` up to `hi`. */
  function Share(packets: seq<UdpTraffic>, addr: SocketAddr, lo: nat, hi: nat): seq<Bytes>
    requires hi <= |packets|
  {
    if hi <= lo then []
    else Share(packets, addr, lo, hi - 1) + if packets[hi - 1].from == addr then [packets[hi - 1].data] else []
  }

  /** How many packets the main loop has finished with. */
  function Dealt(s: State): nat {
    if s.main.Reading? || s.main.Stopped? || s.packets == [] then |s.packets| else |s.packets| - 1
  }

  /** An unfinished forwarder has been handed exactly its visitor's packets, all of them and
      in order, from the one that opened it on; a finished one the first few of them. */
  ghost predicate Fed(s: State) {
    forall f :: 0 <= f < |s.forwarders| ==>
      var w := s.forwarders[f];
      && w.openedBy < |s.packets| && s.packets[w.openedBy].from == w.addr
      && w.sent + w.inbox <= Share(s.packets, w.addr, w.openedBy, Dealt(s))
      && (Unfinished(w) ==> w.sent + w.inbox == Share(s.packets, w.addr, w.openedBy, Dealt(s)))
  }

  /** The frames that have left a forwarder and not been dropped: written, being written,
      queued. */
  function Line(s: State): seq<Reply> {
    s.written + (if s.writer.Writing? then [s.writer.frame] else []) + s.outbound
  }

  /** A frame carries the address whose packet opened the socket it came from, and fits. */
  ghost predicate WellAddressed(s: State, r: Reply) {
    && r.0 < |s.forwarders|
    && r.1.from == s.forwarders[r.0].addr
    && |r.1.data| <= UDP_BUFFER_SIZE
  }

  ghost predicate Addressed(s: State) {
    && (forall r :: r in Line(s) ==> WellAddressed(s, r))
    && (forall f :: 0 <= f < |s.forwarders| && s.forwarders[f].life.Replying? ==>
          |s.forwarders[f].life.data| <= UDP_BUFFER_SIZE)
  }

  /** No queue holds more than it has slots, and the outbound queue goes with its reader. */
  ghost predicate Bounded(s: State) {
    && |s.outbound| <= UDP_SENDQ_SIZE
    && (s.writer.WriterDown? ==> s.outbound == [])
    && (forall f :: 0 <= f < |s.forwarders| ==> |s.forwarders[f].inbox| <= UDP_SENDQ_SIZE)
  }

  /** The replies of one forwarder among some frames. */
  function RepliesOf(frames: seq<Reply>, f: nat): seq<Bytes> {
    if frames == [] then []
    else
      var n := |frames| - 1;
      RepliesOf(frames[..n], f) + if frames[n].0 == f then [frames[n].1.data] else []
  }

  function InHand(w: Forwarder): seq<Bytes> {
    if w.life.Replying? then [w.life.data] else []
  }

  /** What a forwarder read from its service is on the line, in order and once each, with
      perhaps one reply still in its hands; once a write has failed, the replies written
      are the first ones read. */
  ghost predicate Returned(s: State) {
    forall f :: 0 <= f < |s.forwarders| ==>
      if s.writer.WriterDown? then RepliesOf(s.written, f) <= s.forwarders[f].answers
      else RepliesOf(Line(s), f) + InHand(s.forwarders[f]) == s.forwarders[f].answers
  }

  ghost predicate Inv(s: State) {
    Mapped(s) && Placed(s) && Fed(s) && Addressed(s) && Returned(s) && Bounded(s)
  }

  lemma {:induction false} ShareOfMore(packets: seq<UdpTraffic>, more: seq<UdpTraffic>, addr: SocketAddr,
                                       lo: nat, hi: nat)
    requires hi <= |packets|
    ensures Share(packets + more, addr, lo, hi) == Share(packets, addr, lo, hi)
  {
    if hi > lo {
      ShareOfMore(packets, more, addr, lo, hi - 1);
    }
  }

  predicate OfForwarder(step: Step) {
    step.ToService? || step.FromService? || step.QueueReply? || step.Quit? || step.Remove?
  }

  lemma ConnectKeepsMap(s: State)
    requires Mapped(s) && Placed(s) && Enabled(s, Connect(true))
    ensures Mapped(Do(s, Connect(true))) && Placed(Do(s, Connect(true)))
  {
    var s' := Do(s, Connect(true));
    forall f | 0 <= f < |s.forwarders| ensures HasEntry(s', f) == HasEntry(s, f) {
    }
    assert HasEntry(s', |s.forwarders|);
  }

  lemma MainStepKeepsMap(s: State, step: Step)
    requires Mapped(s) && Placed(s) && Enabled(s, step) && !OfForwarder(step)
    ensures Mapped(Do(s, step)) && Placed(Do(s, step))
  {
    var s' := Do(s, step);
    if step.Connect? && step.ok {
      ConnectKeepsMap(s);
    } else {
      SameMap(s, s');
    }
  }

  /** What the port map means depends on addresses and lives alone. */
  lemma SameMap(s: State, s': State)
    requires Mapped(s) && |s.forwarders| == |s'.forwarders| && s'.portMap == s.portMap
    requires forall g :: 0 <= g < |s.forwarders| ==>
      s'.forwarders[g].addr == s.forwarders[g].addr && s'.forwarders[g].life == s.forwarders[g].life
    ensures Mapped(s')
  {
    assert forall g :: 0 <= g < |s.forwarders| ==> HasEntry(s', g) == HasEntry(s, g);
  }

  /** One forwarder moves on without touching the port map. */
  lemma LifeKeepsMap(s: State, s': State, f: nat)
    requires Mapped(s) && Placed(s) && f < |s.forwarders| == |s'.forwarders|
    requires s'.packets == s.packets && s'.main == s.main && s'.portMap == s.portMap
    requires forall g :: 0 <= g < |s.forwarders| ==> s'.forwarders[g].addr == s.forwarders[g].addr
    requires forall g :: 0 <= g < |s.forwarders| && g != f ==> s'.forwarders[g].life == s.forwarders[g].life
    requires s.forwarders[f].life != Gone(false) && s'.forwarders[f].life != Gone(false)
    ensures Mapped(s') && Placed(s')
  {
    assert forall g :: 0 <= g < |s.forwarders| ==> HasEntry(s', g) == HasEntry(s, g);
  }

  lemma RemoveKeepsMap(s: State, f: nat)
    requires Mapped(s) && Placed(s) && Enabled(s, Remove(f))
    ensures Mapped(Do(s, Remove(f))) && Placed(Do(s, Remove(f)))
  {
    assert HasEntry(s, f);
  }

  lemma OwnStepKeepsMap(s: State, step: Step)
    requires Mapped(s) && Placed(s) && Enabled(s, step) && OfForwarder(step)
    ensures Mapped(Do(s, step)) && Placed(Do(s, step))
  {
    if step.Remove? {
      RemoveKeepsMap(s, step.f);
    } else {
      LifeKeepsMap(s, Do(s, step), step.f);
    }
  }

  /** The line only gets longer at its end, unless a write fails. */
  lemma LineGrows(s: State, step: Step)
    requires Enabled(s, step) && step != WriteOut(false)
    ensures Line(Do(s, step)) ==
      Line(s) + if step.QueueReply? && !s.writer.WriterDown?
                then [(step.f, UdpTraffic(s.forwarders[step.f].addr, s.forwarders[step.f].life.data))]
                else []
  {
  }

  lemma StepKeepsAddressed(s: State, step: Step)
    requires Addressed(s) && Enabled(s, step)
    ensures Addressed(Do(s, step))
  {
    var s' := Do(s, step);
    assert |s.forwarders| <= |s'.forwarders|
           && forall g :: 0 <= g < |s.forwarders| ==> s'.forwarders[g].addr == s.forwarders[g].addr;
    if step == WriteOut(false) {
      forall r | r in Line(s') ensures r in Line(s) {
      }
    } else {
      LineGrows(s, step);
    }
  }

  lemma StepKeepsBounded(s: State, step: Step)
    requires Bounded(s) && Enabled(s, step)
    ensures Bounded(Do(s, step))
  {
  }

  lemma {:induction false} RepliesOfBoth(a: seq<Reply>, b: seq<Reply>, f: nat)
    ensures RepliesOf(a + b, f) == RepliesOf(a, f) + RepliesOf(b, f)
  {
    if b == [] {
      assert a + b == a;
    } else {
      var n := |b| - 1;
      assert (a + b)[..|a + b| - 1] == a + b[..n];
      RepliesOfBoth(a, b[..n], f);
    }
  }

  lemma {:induction false} NoRepliesYet(frames: seq<Reply>, f: nat)
    requires forall r :: r in frames ==> r.0 != f
    ensures RepliesOf(frames, f) == []
  {
    if frames != [] {
      NoRepliesYet(frames[..|frames| - 1], f);
    }
  }

  /** After a failed write, the replies written are the first ones read. */
  lemma FailedWriteKeepsReturned(s: State)
    requires Returned(s) && Enabled(s, WriteOut(false))
    ensures Returned(Do(s, WriteOut(false)))
  {
    var rest := [s.writer.frame] + s.outbound;
    assert Line(s) == s.written + rest;
    forall f | 0 <= f < |s.forwarders| ensures RepliesOf(s.written, f) <= s.forwarders[f].answers {
      RepliesOfBoth(s.written, rest, f);
    }
  }

  lemma QueueReplyKeepsReturned(s: State, f: nat)
    requires Returned(s) && Enabled(s, QueueReply(f)) && !s.writer.WriterDown?
    ensures Returned(Do(s, QueueReply(f)))
  {
    var s' := Do(s, QueueReply(f));
    LineGrows(s, QueueReply(f));
    assert Line(s')[..|Line(s)|] == Line(s);
    forall g | 0 <= g < |s.forwarders|
      ensures RepliesOf(Line(s'), g) + InHand(s'.forwarders[g]) == s.forwarders[g].answers
    {
      assert RepliesOf(Line(s'), g) == RepliesOf(Line(s), g) + if g == f then [s.forwarders[f].life.data] else [];
    }
  }

  /** A forwarder's own step may change what it has in hand. */
  lemma OwnStepKeepsReturned(s: State, step: Step)
    requires Returned(s) && Enabled(s, step) && OfForwarder(step)
    ensures Returned(Do(s, step))
  {
    var s' := Do(s, step);
    if step.QueueReply? && !s.writer.WriterDown? {
      QueueReplyKeepsReturned(s, step.f);
    } else {
      var w, w' := s.forwarders[step.f], s'.forwarders[step.f];
      assert Line(s') == Line(s);
      if step.FromService? {
        assert RepliesOf(Line(s), step.f) + [] == RepliesOf(Line(s), step.f);
        assert w'.answers == w.answers + [step.data];
      } else {
        assert w'.answers == w.answers;
      }
      assert forall f :: 0 <= f < |s.forwarders| && f != step.f ==> s'.forwarders[f] == s.forwarders[f];
    }
  }

  lemma OtherStepKeepsReturned(s: State, step: Step)
    requires Returned(s) && Enabled(s, step) && !OfForwarder(step) && !step.Connect?
    ensures Returned(Do(s, step))
  {
    var s' := Do(s, step);
    if step == WriteOut(false) {
      FailedWriteKeepsReturned(s);
    } else {
      LineGrows(s, step);
      assert Line(s') == Line(s);
      forall f | 0 <= f < |s.forwarders|
        ensures s'.forwarders[f].answers == s.forwarders[f].answers
        ensures InHand(s'.forwarders[f]) == InHand(s.forwarders[f])
      {
      }
      assert !s.writer.WriterDown? ==> !s'.writer.WriterDown?;
    }
  }

  lemma ConnectKeepsReturned(s: State, ok: bool)
    requires Returned(s) && Addressed(s) && Enabled(s, Connect(ok))
    ensures Returned(Do(s, Connect(ok)))
  {
    assert Line(Do(s, Connect(ok))) == Line(s);
    NoRepliesYet(Line(s), |s.forwarders|);
    NoRepliesYet(s.written, |s.forwarders|);
  }

  /** The main loop is done with its current packet, having handed it over or not. */
  lemma FinishKeepsFed(s: State, s': State)
    requires Fed(s) && Mapped(s) && Placed(s) && s.packets != [] && Dealt(s) == |s.packets| - 1
    requires s'.packets == s.packets && s'.main.Reading?
    requires |s'.forwarders| == |s.forwarders|
    requires forall f :: 0 <= f < |s.forwarders| ==>
      s'.forwarders[f] == if Unfinished(s.forwarders[f]) && s.forwarders[f].addr == Current(s).from
                          then s.forwarders[f].(inbox := s.forwarders[f].inbox + [Current(s).data])
                          else s.forwarders[f]
    ensures Fed(s')
  {
    forall f | 0 <= f < |s.forwarders|
      ensures var w := s'.forwarders[f];
        && w.sent + w.inbox <= Share(s'.packets, w.addr, w.openedBy, Dealt(s'))
        && (Unfinished(w) ==> w.sent + w.inbox == Share(s'.packets, w.addr, w.openedBy, Dealt(s')))
    {
      var w, w' := s.forwarders[f], s'.forwarders[f];
      assert Share(s.packets, w.addr, w.openedBy, |s.packets|) ==
        Share(s.packets, w.addr, w.openedBy, |s.packets| - 1)
        + if Current(s).from == w.addr then [Current(s).data] else [];
      if w != w' {
        assert w'.sent + w'.inbox == w.sent + w.inbox + [Current(s).data];
      }
    }
  }

  lemma PacketKeepsFed(s: State, t: UdpTraffic)
    requires Fed(s) && Enabled(s, Packet(t))
    ensures Fed(Do(s, Packet(t)))
  {
    forall f | 0 <= f < |s.forwarders|
      ensures Share(s.packets + [t], s.forwarders[f].addr, s.forwarders[f].openedBy, |s.packets|) ==
              Share(s.packets, s.forwarders[f].addr, s.forwarders[f].openedBy, |s.packets|)
    {
      ShareOfMore(s.packets, [t], s.forwarders[f].addr, s.forwarders[f].openedBy, |s.packets|);
    }
  }

  /** A forwarder's own step passes one payload on or ends it, and hands over nothing new. */
  lemma OwnStepKeepsFed(s: State, step: Step)
    requires Fed(s) && Enabled(s, step)
    requires OfForwarder(step)
    ensures Fed(Do(s, step))
  {
    var s' := Do(s, step);
    var w := s.forwarders[step.f];
    if step.ToService? && step.ok {
      assert (w.sent + [w.inbox[0]]) + w.inbox[1..] == w.sent + w.inbox;
    }
    assert s'.packets == s.packets && Dealt(s') == Dealt(s);
  }

  lemma ConnectKeepsFed(s: State)
    requires Fed(s) && Enabled(s, Connect(true))
    ensures Fed(Do(s, Connect(true)))
  {
  }

  lemma MainStepKeepsFed(s: State, step: Step)
    requires Fed(s) && Mapped(s) && Placed(s) && Enabled(s, step)
    requires !OfForwarder(step) && !step.Packet?
    ensures Fed(Do(s, step))
  {
    var s' := Do(s, step);
    if step.Connect? && step.ok {
      ConnectKeepsFed(s);
    } else if s'.main.Reading? && !s.main.Reading? {
      FinishKeepsFed(s, s');
    } else {
      assert s'.forwarders == s.forwarders && s'.packets == s.packets && Dealt(s') == Dealt(s);
    }
  }

  lemma StepKeepsInv(s: State, step: Step)
    requires Inv(s) && Enabled(s, step)
    ensures Inv(Do(s, step))
  {
    StepKeepsAddressed(s, step);
    StepKeepsBounded(s, step);
    if OfForwarder(step) {
      OwnStepKeepsReturned(s, step);
      OwnStepKeepsMap(s, step);
      OwnStepKeepsFed(s, step);
    } else {
      if step.Connect? {
        ConnectKeepsReturned(s, step.ok);
      } else {
        OtherStepKeepsReturned(s, step);
      }
      MainStepKeepsMap(s, step);
      if step.Packet? {
        PacketKeepsFed(s, step.t);
      } else {
        MainStepKeepsFed(s, step);
      }
    }
  }

  lemma {:induction false} RunKeepsInv(s: State, steps: seq<Step>)
    requires Inv(s) && Possible(s, steps)
    ensures Inv(After(s, steps))
    decreases |steps|
  {
    if steps != [] {
      StepKeepsInv(s, steps[0]);
      RunKeepsInv(Do(s, steps[0]), steps[1..]);
    }
  }

  // ----- What the steps of a run did -----

  /** The packets a run read off the stream. */
  function PacketsOf(steps: seq<Step>): seq<UdpTraffic> {
    if steps == [] then [] else (if steps[0].Packet? then [steps[0].t] else []) + PacketsOf(steps[1..])
  }

  /** What the service of one forwarder answered. */
  function AnswersOf(steps: seq<Step>, f: nat): seq<Bytes> {
    if steps == [] then []
    else (if steps[0].FromService? && steps[0].f == f then [steps[0].data] else []) + AnswersOf(steps[1..], f)
  }

  function Answers(s: State, f: nat): seq<Bytes> {
    if f < |s.forwarders| then s.forwarders[f].answers else []
  }

  function Sends(s: State, f: nat): nat {
    if f < |s.forwarders| then |s.forwarders[f].sent| else 0
  }

  function Count(steps: seq<Step>, step: Step): nat {
    if steps == [] then 0 else (if steps[0] == step then 1 else 0) + Count(steps[1..], step)
  }

  lemma StepAnswers(s: State, step: Step, f: nat)
    requires Enabled(s, step)
    ensures Answers(Do(s, step), f) == Answers(s, f) + if step.FromService? && step.f == f then [step.data] else []
    ensures Sends(Do(s, step), f) == Sends(s, f) + if step == ToService(f, true) then 1 else 0
  {
  }

  /** A forwarder has read exactly what its service answered, in order, and has passed on
      as many payloads as its socket took. */
  lemma {:induction false} AnswersAreRead(s: State, steps: seq<Step>, f: nat)
    requires Possible(s, steps)
    ensures Answers(After(s, steps), f) == Answers(s, f) + AnswersOf(steps, f)
    ensures Sends(After(s, steps), f) == Sends(s, f) + Count(steps, ToService(f, true))
    decreases |steps|
  {
    if steps != [] {
      StepAnswers(s, steps[0], f);
      AnswersAreRead(Do(s, steps[0]), steps[1..], f);
    }
  }

  lemma StepReads(s: State, step: Step)
    requires Enabled(s, step)
    ensures var s' := Do(s, step);
      && s'.packets == s.packets + (if step.Packet? then [step.t] else [])
      && (s'.main == Stopped <==> s.main == Stopped || step == StreamEnds)
      && (s'.writer == WriterDown <==> s.writer == WriterDown || step == WriteOut(false))
      && |s'.written| == |s.written| + (if step == WriteOut(true) then 1 else 0)
  {
  }

  /** The packets are those read off the stream. */
  lemma {:induction false} PacketsAreRead(s: State, steps: seq<Step>)
    requires Possible(s, steps)
    ensures After(s, steps).packets == s.packets + PacketsOf(steps)
    decreases |steps|
  {
    if steps != [] {
      StepReads(s, steps[0]);
      PacketsAreRead(Do(s, steps[0]), steps[1..]);
    }
  }

  /** The loop has ended exactly if the stream did, and the writing task exactly if a
      write failed; every other write put one frame on the connection. */
  lemma {:induction false} LoopsEnd(s: State, steps: seq<Step>)
    requires Possible(s, steps)
    ensures After(s, steps).main == Stopped <==> s.main == Stopped || StreamEnds in steps
    ensures After(s, steps).writer == WriterDown <==> s.writer == WriterDown || WriteOut(false) in steps
    ensures |After(s, steps).written| == |s.written| + Count(steps, WriteOut(true))
    decreases |steps|
  {
    if steps != [] {
      StepReads(s, steps[0]);
      LoopsEnd(Do(s, steps[0]), steps[1..]);
      assert forall x :: x in steps <==> x == steps[0] || x in steps[1..];
    }
  }

  predicate HasLife(s: State, f: nat, life: Life) {
    f < |s.forwarders| && s.forwarders[f].life == life
  }

  /** The forwarder returned with an error in these steps: its socket refused a payload, or
      it had a reply to queue when nobody writes any more. */
  ghost predicate Errs(down: bool, steps: seq<Step>, f: nat)
    decreases |steps|
  {
    steps != [] &&
    (steps[0] == ToService(f, false) || (down && steps[0] == QueueReply(f))
     || Errs(down || steps[0] == WriteOut(false), steps[1..], f))
  }

  lemma StepErrs(s: State, step: Step, f: nat)
    requires Enabled(s, step)
    ensures HasLife(Do(s, step), f, Gone(true)) <==>
      HasLife(s, f, Gone(true)) || step == ToService(f, false) || (s.writer.WriterDown? && step == QueueReply(f))
  {
  }

  lemma StepRemoves(s: State, step: Step, f: nat)
    requires Enabled(s, step)
    ensures HasLife(Do(s, step), f, Gone(false)) <==> HasLife(s, f, Gone(false)) || step == Remove(f)
  {
  }

  /** The forwarder has left its loop, by a timeout or an error of its socket's receiving end. */
  predicate HasLeft(s: State, f: nat) {
    HasLife(s, f, Queued) || HasLife(s, f, Gone(false))
  }

  lemma StepLeaves(s: State, step: Step, f: nat)
    requires Enabled(s, step)
    ensures HasLeft(Do(s, step), f) <==> HasLeft(s, f) || step == Quit(f)
  {
  }

  /** How a forwarder ends, by the steps taken: with an error, by removing its entry, or
      on its way there since it left its loop. */
  lemma {:induction false} EndsBySteps(s: State, steps: seq<Step>, f: nat)
    requires Possible(s, steps)
    ensures var s' := After(s, steps);
      && (HasLife(s', f, Gone(true)) <==> HasLife(s, f, Gone(true)) || Errs(s.writer.WriterDown?, steps, f))
      && (HasLife(s', f, Gone(false)) <==> HasLife(s, f, Gone(false)) || Remove(f) in steps)
      && (HasLeft(s', f) <==> HasLeft(s, f) || Quit(f) in steps)
    decreases |steps|
  {
    if steps != [] {
      StepReads(s, steps[0]);
      StepErrs(s, steps[0], f);
      StepRemoves(s, steps[0], f);
      StepLeaves(s, steps[0], f);
      EndsBySteps(Do(s, steps[0]), steps[1..], f);
      assert forall x :: x in steps <==> x == steps[0] || x in steps[1..];
    }
  }

  /** A write failed before the forwarder queued a reply. */
  ghost predicate QueuedTooLate(steps: seq<Step>, f: nat) {
    exists i, j :: 0 <= i < j < |steps| && steps[i] == WriteOut(false) && steps[j] == QueueReply(f)
  }

  lemma {:induction false} ErrsExactly(down: bool, steps: seq<Step>, f: nat)
    ensures Errs(down, steps, f) <==>
      ToService(f, false) in steps || (down && QueueReply(f) in steps) || QueuedTooLate(steps, f)
    decreases |steps|
  {
    if steps != [] {
      var rest := steps[1..];
      ErrsExactly(down || steps[0] == WriteOut(false), rest, f);
      assert forall x :: x in steps <==> x == steps[0] || x in rest;
      if QueuedTooLate(rest, f) {
        var i, j :| 0 <= i < j < |rest| && rest[i] == WriteOut(false) && rest[j] == QueueReply(f);
        assert steps[i + 1] == WriteOut(false) && steps[j + 1] == QueueReply(f);
      }
      if steps[0] == WriteOut(false) && QueueReply(f) in rest {
        var j :| 0 <= j < |rest| && rest[j] == QueueReply(f);
        assert steps[0] == WriteOut(false) && steps[j + 1] == QueueReply(f);
      }
      if QueuedTooLate(steps, f) && steps[0] != WriteOut(false) {
        var i, j :| 0 <= i < j < |steps| && steps[i] == WriteOut(false) && steps[j] == QueueReply(f);
        assert rest[i - 1] == WriteOut(false) && rest[j - 1] == QueueReply(f);
      }
      if QueuedTooLate(steps, f) && steps[0] == WriteOut(false) {
        var i, j :| 0 <= i < j < |steps| && steps[i] == WriteOut(false) && steps[j] == QueueReply(f);
        assert rest[j - 1] == QueueReply(f);
      }
    }
  }

  /** After any run a forwarder has returned with an error exactly if its socket refused a
      payload or a write had failed before it queued a reply; it has removed itself exactly
      if it took that step; and it has left its loop exactly if it took that one. */
  lemma EndsExactly(steps: seq<Step>, f: nat)
    requires Possible(START, steps)
    ensures var s := After(START, steps);
      && (HasLife(s, f, Gone(true)) <==> ToService(f, false) in steps || QueuedTooLate(steps, f))
      && (HasLife(s, f, Gone(false)) <==> Remove(f) in steps)
      && (HasLeft(s, f) <==> Quit(f) in steps)
  {
    EndsBySteps(START, steps, f);
    ErrsExactly(false, steps, f);
  }

  lemma WrittenAreFirst(s: State, f: nat)
    requires Returned(s) && f < |s.forwarders|
    ensures RepliesOf(s.written, f) <= s.forwarders[f].answers
  {
    if !s.writer.WriterDown? {
      var rest := (if s.writer.Writing? then [s.writer.frame] else []) + s.outbound;
      assert Line(s) == s.written + rest;
      RepliesOfBoth(s.written, rest, f);
    }
  }

  lemma ReachableInv(steps: seq<Step>)
    requires Possible(START, steps)
    ensures Inv(After(START, steps))
  {
    RunKeepsInv(START, steps);
  }

  /** One forwarder's replies, from its service to the connection. */
  lemma RepliesAfterAnyRun(steps: seq<Step>, f: nat)
    requires Possible(START, steps) && f < |After(START, steps).forwarders|
    ensures var s := After(START, steps);
      && RepliesOf(s.written, f) <= AnswersOf(steps, f)
      && (WriteOut(false) !in steps ==> RepliesOf(Line(s), f) + InHand(s.forwarders[f]) == AnswersOf(steps, f))
  {
    ReachableInv(steps);
    WrittenAreFirst(After(START, steps), f);
    AnswersAreRead(START, steps, f);
    LoopsEnd(START, steps);
  }

  /** After any interleaving: at most one unfinished forwarder per visitor address; a
      finished forwarder still has its entry exactly if it returned with an error; each
      unfinished forwarder has been handed all of its visitor's packets since the one that
      opened it, in order; every reply carries the address of that opening packet; and
      what is written back are, in order and once each, the first answers its service gave,
      all of them but those still on the line while no write has failed. */
  lemma ForwardersAfterAnyRun(steps: seq<Step>)
    requires Possible(START, steps)
    ensures var s := After(START, steps);
      && (forall f, g :: 0 <= f < g < |s.forwarders| && Unfinished(s.forwarders[f]) && Unfinished(s.forwarders[g]) ==>
            s.forwarders[f].addr != s.forwarders[g].addr)
      && (forall f :: 0 <= f < |s.forwarders| && s.forwarders[f].life.Gone? ==>
            (Get(s.portMap, s.forwarders[f].addr) == Some(f) <==> s.forwarders[f].life.byError))
      && s.packets == PacketsOf(steps) && Mapped(s) && Fed(s) && Returned(s)
      && (forall r :: r in Line(s) ==>
            && r.0 < |s.forwarders| && s.forwarders[r.0].openedBy < |s.packets|
            && r.1.from == s.packets[s.forwarders[r.0].openedBy].from && |r.1.data| < U16_SPAN)
      && (forall f :: 0 <= f < |s.forwarders| ==>
            && RepliesOf(s.written, f) <= AnswersOf(steps, f)
            && (WriteOut(false) !in steps ==> RepliesOf(Line(s), f) + InHand(s.forwarders[f]) == AnswersOf(steps, f)))
  {
    ReachableInv(steps);
    PacketsAreRead(START, steps);
    var s := After(START, steps);
    forall f | 0 <= f < |s.forwarders|
      ensures RepliesOf(s.written, f) <= AnswersOf(steps, f)
      ensures WriteOut(false) !in steps ==> RepliesOf(Line(s), f) + InHand(s.forwarders[f]) == AnswersOf(steps, f)
    {
      RepliesAfterAnyRun(steps, f);
    }
    forall f, g | 0 <= f < g < |s.forwarders| && Unfinished(s.forwarders[f]) && Unfinished(s.forwarders[g])
      ensures s.forwarders[f].addr != s.forwarders[g].addr
    {
      assert HasEntry(s, f) && HasEntry(s, g);
    }
    forall f | 0 <= f < |s.forwarders| && s.forwarders[f].life.Gone?
      ensures Get(s.portMap, s.forwarders[f].addr) == Some(f) <==> s.forwarders[f].life.byError
    {
      assert HasEntry(s, f) <==> s.forwarders[f].life.byError;
    }
  }

  /** A forwarder removes its own entry and no other, and only if it is still its entry. */
  lemma RemovesOnlyItsOwn(s: State, f: nat)
    requires Mapped(s) && Enabled(s, Remove(f))
    ensures var s' := Do(s, Remove(f));
      && Get(s.portMap, s.forwarders[f].addr) == Some(f)
      && forall x :: x in s.portMap && s.portMap[x] != f ==> Get(s'.portMap, x) == Some(s.portMap[x])
  {
    assert HasEntry(s, f);
  }

  /** The forwarder of `x` returned with an error. */
  ghost predicate LeftBehind(s: State, x: SocketAddr) {
    x in s.portMap && s.portMap[x] < |s.forwarders| && s.forwarders[s.portMap[x]].life == Gone(true)
  }

  lemma StepKeepsLeftBehind(s: State, step: Step, x: SocketAddr)
    requires Mapped(s) && Placed(s) && Enabled(s, step) && LeftBehind(s, x)
    ensures var s' := Do(s, step);
      LeftBehind(s', x) && s'.portMap[x] == s.portMap[x] && s'.forwarders[s.portMap[x]] == s.forwarders[s.portMap[x]]
  {
    if step.Remove? {
      RemovesOnlyItsOwn(s, step.f);
      assert Get(Do(s, step).portMap, x) == Some(s.portMap[x]);
    }
  }

  /** Its entry then stays for good: at every later time the finished forwarder is what
      the visitor's packets are sent to, and no other forwarder of that visitor runs. */
  lemma {:induction false} LeftBehindForGood(s: State, steps: seq<Step>, x: SocketAddr)
    requires Inv(s) && Possible(s, steps) && LeftBehind(s, x)
    ensures var s' := After(s, steps);
      && LeftBehind(s', x) && s'.portMap[x] == s.portMap[x]
      && s'.forwarders[s.portMap[x]] == s.forwarders[s.portMap[x]]
      && (forall f :: 0 <= f < |s'.forwarders| && s'.forwarders[f].addr == x ==> !Unfinished(s'.forwarders[f]))
    decreases |steps|
  {
    if steps != [] {
      StepKeepsInv(s, steps[0]);
      StepKeepsLeftBehind(s, steps[0], x);
      LeftBehindForGood(Do(s, steps[0]), steps[1..], x);
    }
  }

  // ----- When the main loop can go on -----

  /** The main loop waits for a lock or a queue slot that only a forwarder can give, and
      that forwarder waits for the guard the main loop holds. */
  ghost predicate Stuck(s: State) {
    || (s.main == SecondLookup(true) && SomeQueued(s))
    || (s.main.Delivering? && s.main.f < |s.forwarders| && s.forwarders[s.main.f].life == Queued
        && |s.forwarders[s.main.f].inbox| >= UDP_SENDQ_SIZE)
  }

  lemma StepKeepsStuck(s: State, step: Step)
    requires Stuck(s) && Enabled(s, step)
    ensures Stuck(Do(s, step)) && Do(s, step).main == s.main
    ensures Do(s, step).packets == s.packets && Do(s, step).portMap == s.portMap
  {
    var s' := Do(s, step);
    if s.main == SecondLookup(true) {
      var f :| 0 <= f < |s.forwarders| && s.forwarders[f].life == Queued;
      assert s'.forwarders[f].life == Queued;
    }
  }

  /** Then it never reads another packet, whatever the forwarders do. */
  lemma {:induction false} StuckForGood(s: State, steps: seq<Step>)
    requires Stuck(s) && Possible(s, steps)
    ensures Stuck(After(s, steps)) && After(s, steps).main == s.main
    ensures After(s, steps).packets == s.packets && After(s, steps).portMap == s.portMap
    decreases |steps|
  {
    if steps != [] {
      StepKeepsStuck(s, steps[0]);
      StuckForGood(Do(s, steps[0]), steps[1..]);
    }
  }

  ghost function QueuedSet(s: State): set<nat> {
    set f: nat | f < |s.forwarders| && s.forwarders[f].life == Queued
  }

  /** No I/O fails in this step. */
  predicate Smooth(step: Step) {
    step.Connect? || step.ToService? || step.WriteOut? ==> step.ok
  }

  /** With no guard held, the queued forwarders can all remove themselves. */
  lemma {:induction false} QueueClears(s: State) returns (steps: seq<Step>)
    requires !MainHolds(s.main)
    ensures Possible(s, steps) && !SomeQueued(After(s, steps)) && forall x :: x in steps ==> Smooth(x)
    ensures After(s, steps).main == s.main && After(s, steps).packets == s.packets
    decreases |QueuedSet(s)|
  {
    if SomeQueued(s) {
      var f: nat :| f < |s.forwarders| && s.forwarders[f].life == Queued;
      var s' := Do(s, Remove(f));
      assert QueuedSet(s') == QueuedSet(s) - {f};
      assert f in QueuedSet(s);
      var rest := QueueClears(s');
      steps := [Remove(f)] + rest;
      assert steps[1..] == rest;
    } else {
      steps := [];
    }
  }

  lemma {:induction false} Append(s: State, steps: seq<Step>, last: Step)
    requires Possible(s, steps) && Enabled(After(s, steps), last)
    ensures Possible(s, steps + [last]) && After(s, steps + [last]) == Do(After(s, steps), last)
    decreases |steps|
  {
    if steps == [] {
      assert [last][1..] == [];
    } else {
      assert (steps + [last])[1..] == steps[1..] + [last];
      Append(Do(s, steps[0]), steps[1..], last);
    }
  }

  /** A forwarder with a reply in hand gets a slot for it: the writing task takes one. */
  lemma SlotComes(s: State, f: nat) returns (steps: seq<Step>)
    requires f < |s.forwarders| && s.forwarders[f].life.Replying? && |s.outbound| <= UDP_SENDQ_SIZE
    ensures Possible(s, steps) && Enabled(After(s, steps), QueueReply(f)) && forall x :: x in steps ==> Smooth(x)
    ensures After(s, steps).forwarders == s.forwarders && After(s, steps).main == s.main
    ensures After(s, steps).packets == s.packets
  {
    steps := [];
    if |s.outbound| == UDP_SENDQ_SIZE && !s.writer.WriterDown? {
      if s.writer.Writing? {
        Append(s, steps, WriteOut(true));
        steps := steps + [WriteOut(true)];
      }
      Append(s, steps, TakeOut);
      steps := steps + [TakeOut];
    }
  }

  /** A forwarder that is not queued makes room in its inbox, or ends because replies can
      no longer be written. */
  lemma RoomComes(s: State, f: nat) returns (steps: seq<Step>)
    requires f < |s.forwarders| && (s.forwarders[f].life.Running? || s.forwarders[f].life.Replying?)
    requires 0 < |s.forwarders[f].inbox| <= UDP_SENDQ_SIZE && |s.outbound| <= UDP_SENDQ_SIZE
    ensures Possible(s, steps) && forall x :: x in steps ==> Smooth(x)
    ensures var s' := After(s, steps);
      && s'.main == s.main && s'.packets == s.packets && |s'.forwarders| == |s.forwarders|
      && (Unfinished(s'.forwarders[f]) ==> |s'.forwarders[f].inbox| < UDP_SENDQ_SIZE)
  {
    steps := [];
    if s.forwarders[f].life.Replying? {
      steps := SlotComes(s, f);
      Append(s, steps, QueueReply(f));
      steps := steps + [QueueReply(f)];
    }
    if IsRunning(After(s, steps), f) {
      Append(s, steps, ToService(f, true));
      steps := steps + [ToService(f, true)];
    }
  }

  /** A run in which no I/O fails and after which the main loop has moved on. */
  lemma MovesOn(s: State) returns (steps: seq<Step>)
    requires Inv(s) && !s.main.Reading? && !s.main.Stopped? && !Stuck(s)
    ensures Possible(s, steps) && After(s, steps).main != s.main && forall x :: x in steps ==> Smooth(x)
  {
    var last;
    steps := [];
    match s.main {
      case FirstLookup =>
        steps := QueueClears(s);
        last := LookFirst;
      case WantsWrite =>
        last := TakeWrite;
      case Connecting =>
        last := Connect(true);
      case SecondLookup(held) =>
        if !held {
          steps := QueueClears(s);
        }
        last := LookSecond;
      case Delivering(f) =>
        if Unfinished(s.forwarders[f]) && |s.forwarders[f].inbox| >= UDP_SENDQ_SIZE {
          steps := RoomComes(s, f);
        }
        last := Deliver;
    }
    Append(s, steps, last);
    steps := steps + [last];
  }

  /** Exactly when a packet is never finished with: in the middle of one, the main loop
      can still go on, with no failure to help it, unless it sits between its two lookups
      with the first guard in hand and a forwarder queued, or is delivering into the full
      inbox of one that is queued. */
  lemma StuckExactly(s: State)
    requires Inv(s) && !s.main.Reading? && !s.main.Stopped?
    ensures Stuck(s) <==> forall steps :: Possible(s, steps) ==> After(s, steps).main == s.main
    ensures Stuck(s) || exists steps ::
      Possible(s, steps) && After(s, steps).main != s.main && forall x :: x in steps ==> Smooth(x)
  {
    if Stuck(s) {
      forall steps | Possible(s, steps) ensures After(s, steps).main == s.main {
        StuckForGood(s, steps);
      }
    } else {
      var steps := MovesOn(s);
    }
  }

  /** While the main loop holds a guard of the port map, no forwarder changes it. */
  lemma GuardExcludes(s: State, step: Step)
    requires Enabled(s, step) && OfForwarder(step) && MainHolds(s.main)
    ensures Do(s, step).portMap == s.portMap
  {
  }

  /** If no socket can be connected, the packet is given up and the loop reads the next one;
      nothing is left behind for its visitor. */
  lemma FailedConnectGivesUp(s: State)
    requires Inv(s) && s.main.Connecting? && !SomeQueued(s)
    ensures var steps := [Connect(false), LookSecond];
      && Possible(s, steps) && After(s, steps) == s.(main := Reading)
  {
    var s1 := Do(s, Connect(false));
    assert !SomeQueued(s1);
    assert [Connect(false), LookSecond][1..] == [LookSecond];
    assert Possible(s1, [LookSecond]) && After(s1, [LookSecond]) == Do(s1, LookSecond);
  }

  // ----- Runs that go wrong -----

  function Copies<T>(x: T, n: nat): (r: seq<T>)
    ensures |r| == n && forall i :: 0 <= i < n ==> r[i] == x
  {
    if n == 0 then [] else Copies(x, n - 1) + [x]
  }

  /** `n` packets of one visitor have been handed to its forwarder, which has not passed
      any of them on. */
  function Backlog(t: UdpTraffic, n: nat): State {
    var w := Forwarder(t.from, 0, Running, Copies(t.data, n), [], []);
    State(Copies(t, n), Reading, map[t.from := 0], [w], [], Idle, [])
  }

  lemma NewVisitorIsReachable(t: UdpTraffic) returns (steps: seq<Step>)
    ensures Possible(START, steps) && After(START, steps) == State([t], Connecting, map[], [], [], Idle, [])
  {
    Append(START, [], Packet(t));
    steps := [] + [Packet(t)];
    Append(START, steps, LookFirst);
    steps := steps + [LookFirst];
    Append(START, steps, TakeWrite);
    steps := steps + [TakeWrite];
  }

  lemma OneVisitorIsReachable(t: UdpTraffic) returns (steps: seq<Step>)
    ensures Possible(START, steps) && After(START, steps) == Backlog(t, 1)
  {
    steps := NewVisitorIsReachable(t);
    Append(START, steps, Connect(true));
    steps := steps + [Connect(true)];
    assert After(START, steps) ==
      State([t], SecondLookup(false), map[t.from := 0], [Forwarder(t.from, 0, Running, [], [], [])], [], Idle, []);
    Append(START, steps, LookSecond);
    steps := steps + [LookSecond];
    Append(START, steps, Deliver);
    steps := steps + [Deliver];
    assert [t] == Copies(t, 1) && [] + [t.data] == Copies(t.data, 1);
  }

  /** The visitor's next packet is on the way to its forwarder, under the first guard. */
  lemma SecondLookupIsReachable(t: UdpTraffic, n: nat, before: seq<Step>) returns (steps: seq<Step>)
    requires Possible(START, before) && After(START, before) == Backlog(t, n)
    ensures Possible(START, steps)
    ensures After(START, steps) == Backlog(t, n).(packets := Copies(t, n + 1), main := SecondLookup(true))
  {
    Append(START, before, Packet(t));
    steps := before + [Packet(t)];
    Append(START, steps, LookFirst);
    steps := steps + [LookFirst];
  }

  lemma {:induction false} BacklogIsReachable(t: UdpTraffic, n: nat) returns (steps: seq<Step>)
    requires 0 < n <= UDP_SENDQ_SIZE
    ensures Possible(START, steps) && After(START, steps) == Backlog(t, n)
  {
    if n == 1 {
      steps := OneVisitorIsReachable(t);
    } else {
      steps := BacklogIsReachable(t, n - 1);
      steps := SecondLookupIsReachable(t, n - 1, steps);
      Append(START, steps, LookSecond);
      steps := steps + [LookSecond];
      Append(START, steps, Deliver);
      steps := steps + [Deliver];
    }
  }

  /** A forwarder whose socket fails leaves its visitor behind. */
  lemma LeftBehindIsReachable(t: UdpTraffic) returns (steps: seq<Step>)
    ensures Possible(START, steps) && LeftBehind(After(START, steps), t.from)
  {
    steps := OneVisitorIsReachable(t);
    Append(START, steps, ToService(0, false));
    steps := steps + [ToService(0, false)];
  }

  /** The first kind of stuck state is reached by a visitor's second packet arriving as
      its forwarder times out. */
  lemma StuckIsReachable(t: UdpTraffic) returns (steps: seq<Step>)
    ensures Possible(START, steps) && Stuck(After(START, steps)) && After(START, steps).main == SecondLookup(true)
  {
    steps := OneVisitorIsReachable(t);
    steps := SecondLookupIsReachable(t, 1, steps);
    Append(START, steps, Quit(0));
    steps := steps + [Quit(0)];
    assert After(START, steps).forwarders[0].life == Queued;
  }

  /** The second kind: the loop waits to deliver into a full inbox when the forwarder's
      socket reports an error to its receiving end. */
  lemma StuckDeliveringIsReachable(t: UdpTraffic) returns (steps: seq<Step>)
    ensures Possible(START, steps) && Stuck(After(START, steps)) && After(START, steps).main == Delivering(0)
    ensures |After(START, steps).forwarders| == 1 && |After(START, steps).forwarders[0].inbox| == 1024
  {
    steps := BacklogIsReachable(t, UDP_SENDQ_SIZE);
    steps := SecondLookupIsReachable(t, UDP_SENDQ_SIZE, steps);
    Append(START, steps, LookSecond);
    steps := steps + [LookSecond];
    Append(START, steps, Quit(0));
    steps := steps + [Quit(0)];
  }

  // ----- The tasks themselves, updating the shared port map in place -----

  /** The step the main loop takes next with its packet in hand. */
  function NextStep(m: Main, connected: bool): Step
    requires !m.Reading? && !m.Stopped?
  {
    match m
    case FirstLookup => LookFirst
    case WantsWrite => TakeWrite
    case Connecting => Connect(connected)
    case SecondLookup(_) => LookSecond
    case Delivering(_) => Deliver
  }

  /** Any prefix of a run is a run, and ends where the next step starts. */
  lemma {:induction false} Prefix(s: State, steps: seq<Step>, n: nat)
    requires Inv(s) && Possible(s, steps) && n <= |steps|
    ensures Possible(s, steps[..n]) && Placed(After(s, steps[..n]))
    ensures n < |steps| ==> Enabled(After(s, steps[..n]), steps[n])
    ensures n < |steps| ==>
      Possible(s, steps[..n + 1]) && After(s, steps[..n + 1]) == Do(After(s, steps[..n]), steps[n])
    decreases |steps|
  {
    if n > 0 {
      StepKeepsInv(s, steps[0]);
      Prefix(Do(s, steps[0]), steps[1..], n - 1);
      assert steps[..n][1..] == steps[1..][..n - 1];
      if n < |steps| {
        assert steps[..n + 1][1..] == steps[1..][..n];
      }
    } else if steps != [] {
      assert steps[..1][1..] == [];
    }
  }

  /** The port map, the main loop, the forwarders and the writing task of one data
      channel. Each method runs one task from an await to the next. */
  class DataChannel {
    var packets: seq<UdpTraffic>
    var main: Main
    var portMap: map<SocketAddr, nat>
    var forwarders: seq<Forwarder>
    var outbound: seq<Reply>
    var writer: Writer
    var written: seq<Reply>

    ghost function View(): State
      reads this
    {
      State(packets, main, portMap, forwarders, outbound, writer, written)
    }

    constructor ()
      ensures View() == START
    {
      packets, main, portMap, forwarders, outbound, writer, written := [], Reading, map[], [], [], Idle, [];
    }

    /** Reads the next packet off the stream, or ends with it. */
    method ReadPacket(next: Option<UdpTraffic>)
      requires main == Reading
      modifies this`packets, this`main
      ensures View() == Do(old(View()), if next.Some? then Packet(next.value) else StreamEnds)
    {
      if next.Some? {
        packets := packets + [next.value];
        main := FirstLookup;
      } else {
        main := Stopped;
      }
    }

    /** The rest of one round of the loop of `run_data_channel_for_udp`, one lock or queue
        at a time; `granted` says that the guard asked for is there. */
    method MainTurn(connected: bool, granted: bool) returns (moved: bool)
      requires Placed(View()) && main != Reading && main != Stopped
      requires granted ==> !SomeQueued(View())
      modifies this`main, this`portMap, this`forwarders
      ensures var before := old(View()); var step := NextStep(before.main, connected);
        && (moved <==> Enabled(before, step) && (before.main.FirstLookup? || before.main.SecondLookup? ==> granted))
        && View() == if moved then Do(before, step) else before
    {
      var from := packets[|packets| - 1].from;
      moved := true;
      match main {
        case FirstLookup =>
          if granted {
            main := if from in portMap then SecondLookup(true) else WantsWrite;
          } else {
            moved := false;
          }
        case WantsWrite =>
          main := Connecting;
        case Connecting =>
          if connected {
            portMap := portMap[from := |forwarders|];
            forwarders := forwarders + [Forwarder(from, |packets| - 1, Running, [], [], [])];
          }
          main := SecondLookup(false);
        case SecondLookup(_) =>
          if granted {
            main := if from in portMap then Delivering(portMap[from]) else Reading;
          } else {
            moved := false;
          }
        case Delivering(f) =>
          var w := forwarders[f];
          if !Unfinished(w) {
            main := Reading;
          } else if |w.inbox| < UDP_SENDQ_SIZE {
            forwarders := forwarders[f := w.(inbox := w.inbox + [packets[|packets| - 1].data])];
            main := Reading;
          } else {
            moved := false;
          }
      }
    }

    /** The arms of the loop of `run_udp_forwarder`: a payload for the service, a reply
        from it, or the end of the loop. */
    method ToServiceArm(f: nat, ok: bool)
      requires Enabled(View(), ToService(f, ok))
      modifies this`forwarders
      ensures View() == Do(old(View()), ToService(f, ok))
    {
      var w := forwarders[f];
      if ok {
        w := w.(inbox := w.inbox[1..], sent := w.sent + [w.inbox[0]]);
      } else {
        w := w.(life := Gone(true));
      }
      forwarders := forwarders[f := w];
    }

    /** What `recv` gives: a datagram cut at the buffer's size, or an error, on which the
        forwarder leaves its loop. */
    method FromServiceArm(f: nat, received: Option<Bytes>)
      requires IsRunning(View(), f)
      modifies this`forwarders
      ensures View() == Do(old(View()), match received
                                        case Some(data) => FromService(f, Cut(data))
                                        case None => Quit(f))
    {
      var w := forwarders[f];
      match received {
        case Some(data) =>
          w := w.(life := Replying(Cut(data)), answers := w.answers + [Cut(data)]);
        case None =>
          w := w.(life := Queued);
      }
      forwarders := forwarders[f := w];
    }

    /** The send on the outbound queue: waits for a slot, or fails if the writing task is gone. */
    method SendReply(f: nat) returns (moved: bool)
      requires f < |forwarders| && forwarders[f].life.Replying?
      modifies this`forwarders, this`outbound
      ensures moved <==> old(writer).WriterDown? || |old(outbound)| < 1024
      ensures moved <==> Enabled(old(View()), QueueReply(f))
      ensures View() == if moved then Do(old(View()), QueueReply(f)) else old(View())
    {
      moved := true;
      var w := forwarders[f];
      if writer.WriterDown? {
        forwarders := forwarders[f := w.(life := Gone(true))];
      } else if |outbound| < UDP_SENDQ_SIZE {
        outbound := outbound + [(f, UdpTraffic(w.addr, w.life.data))];
        forwarders := forwarders[f := w.(life := Running)];
      } else {
        moved := false;
      }
    }

    /** Leaves the loop after a timeout and queues for the write lock; later, removes its
        entry. */
    method Leave(f: nat)
      requires f < |forwarders|
      requires forwarders[f].life == Running || Enabled(View(), Remove(f))
      modifies this`forwarders, this`portMap
      ensures View() == Do(old(View()), if old(forwarders[f].life == Running) then Quit(f) else Remove(f))
    {
      if forwarders[f].life == Running {
        forwarders := forwarders[f := forwarders[f].(life := Queued)];
      } else {
        portMap := portMap - {forwarders[f].addr};
        forwarders := forwarders[f := forwarders[f].(life := Gone(false))];
      }
    }

    /** The spawned task that writes the queued replies out until a write fails. */
    method WriterTurn(ok: bool) returns (moved: bool)
      modifies this`outbound, this`writer, this`written
      ensures moved <==> old(writer.Writing? || (writer.Idle? && outbound != []))
      ensures View() ==
        if moved then Do(old(View()), if old(writer.Writing?) then WriteOut(ok) else TakeOut) else old(View())
    {
      moved := true;
      if writer.Writing? {
        if ok {
          written := written + [writer.frame];
          writer := Idle;
        } else {
          outbound := [];
          writer := WriterDown;
        }
      } else if writer.Idle? && outbound != [] {
        writer := Writing(outbound[0]);
        outbound := outbound[1..];
      } else {
        moved := false;
      }
    }

    /** Whatever step is possible, running the code of the task it belongs to takes it. */
    method Perform(step: Step)
      requires Placed(View()) && Enabled(View(), step)
      modifies this
      ensures View() == Do(old(View()), step)
    {
      var moved := true;
      match step {
        case Packet(t) => ReadPacket(Some(t));
        case StreamEnds => ReadPacket(None);
        case ToService(f, ok) => ToServiceArm(f, ok);
        case FromService(f, data) => FromServiceArm(f, Some(data));
        case QueueReply(f) => moved := SendReply(f);
        case Quit(f) => Leave(f);
        case Remove(f) => Leave(f);
        case TakeOut => moved := WriterTurn(true);
        case WriteOut(ok) => moved := WriterTurn(ok);
        case Connect(ok) => moved := MainTurn(ok, false);
        case _ => moved := MainTurn(false, step.LookFirst? || step.LookSecond?);
      }
    }

    /** The tasks' code run in any order they allow: the channel ends where the run does,
        and so keeps what every run keeps. */
    static method Run(steps: seq<Step>) returns (d: DataChannel)
      requires Possible(START, steps)
      ensures fresh(d) && d.View() == After(START, steps) && Inv(d.View())
    {
      d := new DataChannel();
      for n := 0 to |steps|
        invariant fresh(d) && Possible(START, steps[..n]) && d.View() == After(START, steps[..n])
      {
        Prefix(START, steps, n);
        d.Perform(steps[n]);
      }
      assert steps[..|steps|] == steps;
      RunKeepsInv(START, steps);
    }
  }
}
