/** Matching responses to requests: the pending-response map shared by `forward_via_tunnel`
    in `proxy.rs` and the Response arm of `handle_socket` in `main.rs`. Calls interleave
    with each other and with responses at every await. */
module Correlation {
  import opened Basics

  type RequestId = Bytes

  /** How a call ended. */
  datatype Outcome =
    | Answered(response: Bytes)
    | BadRequest       // the body could not be read
    | InternalError    // the request could not be encoded
    | BadGateway       // the tunnel would not take the request
    | SenderDropped    // the response sender went away unused
    | GatewayTimeout

  /** How far a call has come: registered, encoded, sent; about to clean up; ended; or
      dropped in the middle because the visitor closed the connection. */
  datatype Stage = Preparing | Sending | Waiting | SendFailed | TimedOut | Ended(outcome: Outcome) | Abandoned

  /** A call and its one-shot channel. `since` is how many responses had arrived when it
      registered. */
  datatype Call = Call(id: RequestId, stage: Stage, slot: Option<Bytes>, since: nat)

  /** `responses` maps a request id to the call whose one-shot sender it holds. */
  datatype State = State(calls: seq<Call>, responses: map<RequestId, nat>, arrivals: seq<(RequestId, Bytes)>)

  const START: State := State([], map[], [])

  datatype Step =
    | Register(id: RequestId)
    | PrepareFailed(n: nat, bodyRead: bool)
    | Prepared(n: nat)
    | Sent(n: nat)
    | SendRefused(n: nat)
    | CleanSendFailure(n: nat)
    | Arrive(id: RequestId, response: Bytes)
    | Receive(n: nat)
    | NoticeDrop(n: nat)
    | TimeOut(n: nat)
    | CleanTimeOut(n: nat)
    | Abandon(n: nat)

  predicate AtStage(s: State, n: nat, stage: Stage) {
    n < |s.calls| && s.calls[n].stage == stage
  }

  /** The call does nothing any more. */
  predicate Over(stage: Stage) {
    stage.Ended? || stage.Abandoned?
  }

  /** The receiving end still exists. */
  predicate Listening(stage: Stage) {
    stage.Preparing? || stage.Sending? || stage.Waiting? || stage.SendFailed?
  }

  ghost predicate Enabled(s: State, step: Step) {
    match step
    // Request ids are random and taken to be unique.
    case Register(id) => forall c :: c in s.calls ==> c.id != id
    case PrepareFailed(n, _) => AtStage(s, n, Preparing)
    case Prepared(n) => AtStage(s, n, Preparing)
    case Sent(n) => AtStage(s, n, Sending)
    case SendRefused(n) => AtStage(s, n, Sending)
    case CleanSendFailure(n) => AtStage(s, n, SendFailed)
    case Arrive(_, _) => true
    // The timeout looks at the channel before the clock.
    case Receive(n) => AtStage(s, n, Waiting) && s.calls[n].slot.Some?
    case NoticeDrop(n) => AtStage(s, n, Waiting) && s.calls[n].slot.None? && n !in s.responses.Values
    case TimeOut(n) => AtStage(s, n, Waiting) && s.calls[n].slot.None?
    case CleanTimeOut(n) => AtStage(s, n, TimedOut)
    // At any await the handler's future can be dropped, and its receiver with it.
    case Abandon(n) => n < |s.calls| && !Over(s.calls[n].stage)
  }

  function Move(s: State, n: nat, stage: Stage): State
    requires n < |s.calls|
  {
    s.(calls := s.calls[n := s.calls[n].(stage := stage)])
  }

  /** Ends a call after taking its id out of the map. */
  function CleanUp(s: State, n: nat, outcome: Outcome): State
    requires n < |s.calls|
  {
    Move(s, n, Ended(outcome)).(responses := s.responses - {s.calls[n].id})
  }

  ghost function Do(s: State, step: Step): State
    requires Enabled(s, step)
  {
    match step
    case Register(id) =>
      s.(calls := s.calls + [Call(id, Preparing, None, |s.arrivals|)], responses := s.responses[id := |s.calls|])
    case PrepareFailed(n, bodyRead) => Move(s, n, Ended(if bodyRead then InternalError else BadRequest))
    case Prepared(n) => Move(s, n, Sending)
    case Sent(n) => Move(s, n, Waiting)
    case SendRefused(n) => Move(s, n, SendFailed)
    case CleanSendFailure(n) => CleanUp(s, n, BadGateway)
    case Arrive(id, response) =>
      var s1 := s.(arrivals := s.arrivals + [(id, response)]);
      if id !in s.responses || s.responses[id] >= |s.calls| then
        s1
      else
        var n := s.responses[id];
        var c := s.calls[n];
        s1.(responses := s.responses - {id},
            calls := s.calls[n := if Listening(c.stage) then c.(slot := Some(response)) else c])
    case Receive(n) => Move(s, n, Ended(Answered(s.calls[n].slot.value)))
    case NoticeDrop(n) => CleanUp(s, n, SenderDropped)
    case TimeOut(n) => Move(s, n, TimedOut)
    case CleanTimeOut(n) => CleanUp(s, n, GatewayTimeout)
    case Abandon(n) => Move(s, n, Abandoned)
  }

  // ----- The invariant -----

  /** The first response with this id among those that arrived from `since` on. */
  function FirstSince(arrivals: seq<(RequestId, Bytes)>, since: nat, id: RequestId): Option<Bytes>
  {
    if |arrivals| <= since then
      None
    else
      var earlier := FirstSince(arrivals[..|arrivals| - 1], since, id);
      if earlier.Some? then earlier
      else if arrivals[|arrivals| - 1].0 == id then Some(arrivals[|arrivals| - 1].1)
      else None
  }

  /** There is one exactly if some such response arrived, and it is the earliest. */
  lemma {:induction false} FirstSinceExactly(arrivals: seq<(RequestId, Bytes)>, since: nat, id: RequestId, r: Bytes)
    ensures FirstSince(arrivals, since, id) == None <==> forall i :: since <= i < |arrivals| ==> arrivals[i].0 != id
    ensures FirstSince(arrivals, since, id) == Some(r) <==>
      exists i :: since <= i < |arrivals| && arrivals[i] == (id, r)
                  && forall j :: since <= j < i ==> arrivals[j].0 != id
  {
    if |arrivals| > since {
      var last := |arrivals| - 1;
      FirstSinceExactly(arrivals[..last], since, id, r);
      if arrivals[last].0 == id && FirstSince(arrivals[..last], since, id).None? {
        assert arrivals[last] == (id, arrivals[last].1);
      }
      if exists i :: since <= i < last && arrivals[i] == (id, r) && forall j :: since <= j < i ==> arrivals[j].0 != id {
        var i :| since <= i < last && arrivals[i] == (id, r) && forall j :: since <= j < i ==> arrivals[j].0 != id;
        assert arrivals[..last][i] == (id, r);
      }
    }
  }

  ghost function Due(s: State, n: nat): Option<Bytes>
    requires n < |s.calls|
  {
    FirstSince(s.arrivals, s.calls[n].since, s.calls[n].id)
  }

  /** The call took its own id out of the map again. */
  predicate CleanedUp(stage: Stage) {
    stage.Ended? && (stage.outcome.BadGateway? || stage.outcome.GatewayTimeout? || stage.outcome.SenderDropped?)
  }

  /** An id is pending exactly while its call has not cleaned up and no response with that
      id has arrived since it registered. */
  ghost predicate Pending(s: State) {
    && (forall id :: id in s.responses ==> s.responses[id] < |s.calls| && s.calls[s.responses[id]].id == id)
    && (forall n :: 0 <= n < |s.calls| ==>
          (s.calls[n].id in s.responses <==> !CleanedUp(s.calls[n].stage) && Due(s, n).None?))
  }

  ghost predicate UniqueIds(s: State) {
    forall m, n :: 0 <= m < n < |s.calls| ==> s.calls[m].id != s.calls[n].id
  }

  /** What a call has in its channel, or was answered with, is the first response bearing
      its id; and while it listens, that response is there as soon as it has arrived. */
  ghost predicate Matched(s: State) {
    forall n :: 0 <= n < |s.calls| ==>
      var c := s.calls[n];
      && c.since <= |s.arrivals|
      && (Listening(c.stage) ==> c.slot == Due(s, n))
      && (c.stage.Ended? && c.stage.outcome.Answered? ==> Due(s, n) == Some(c.stage.outcome.response))
      && (c.stage.Ended? ==> !c.stage.outcome.SenderDropped?)
  }

  ghost predicate Inv(s: State) {
    Pending(s) && UniqueIds(s) && Matched(s)
  }

  lemma DueGrows(s: State, x: (RequestId, Bytes), n: nat)
    requires n < |s.calls| && s.calls[n].since <= |s.arrivals|
    ensures FirstSince(s.arrivals + [x], s.calls[n].since, s.calls[n].id) ==
      if Due(s, n).Some? then Due(s, n) else if x.0 == s.calls[n].id then Some(x.1) else None
  {
  }

  lemma RegisterKeepsInv(s: State, id: RequestId)
    requires Inv(s) && Enabled(s, Register(id))
    ensures Inv(Do(s, Register(id)))
  {
  }

  lemma DueAfterArrival(s: State, id: RequestId, response: Bytes, n: nat)
    requires Pending(s) && n < |s.calls| && s.calls[n].since <= |s.arrivals|
    ensures Due(Do(s, Arrive(id, response)), n) ==
      if Due(s, n).Some? then Due(s, n) else if id == s.calls[n].id then Some(response) else None
  {
    DueGrows(s, (id, response), n);
    var s' := Do(s, Arrive(id, response));
    assert s'.calls[n].id == s.calls[n].id && s'.calls[n].since == s.calls[n].since;
  }

  /** A response whose id is not pending changes no call and is due to none. */
  lemma StrayKeepsInv(s: State, id: RequestId, response: Bytes)
    requires Inv(s) && id !in s.responses
    ensures Inv(Do(s, Arrive(id, response)))
  {
    var s' := Do(s, Arrive(id, response));
    forall n | 0 <= n < |s.calls|
      ensures Due(s', n) == Due(s, n) || (CleanedUp(s.calls[n].stage) && Due(s, n).None?)
    {
      DueAfterArrival(s, id, response, n);
    }
  }

  /** A response whose id is pending goes to the one call with that id. */
  lemma DeliveryKeepsInv(s: State, id: RequestId, response: Bytes)
    requires Inv(s) && id in s.responses
    ensures Inv(Do(s, Arrive(id, response)))
  {
    var s' := Do(s, Arrive(id, response));
    var m := s.responses[id];
    forall n | 0 <= n < |s.calls|
      ensures Due(s', n) == if n == m then Some(response) else Due(s, n)
      ensures n != m ==> s'.calls[n] == s.calls[n] && s.calls[n].id != id
    {
      DueAfterArrival(s, id, response, n);
    }
    assert UniqueIds(s');
    assert Pending(s');
  }

  lemma ArriveKeepsInv(s: State, id: RequestId, response: Bytes)
    requires Inv(s)
    ensures Inv(Do(s, Arrive(id, response)))
  {
    if id in s.responses {
      DeliveryKeepsInv(s, id, response);
    } else {
      StrayKeepsInv(s, id, response);
    }
  }

  /** A call that moves on by itself, leaving its id where it is. */
  lemma MoveKeepsInv(s: State, n: nat, stage: Stage)
    requires Inv(s) && n < |s.calls| && !CleanedUp(s.calls[n].stage) && !CleanedUp(stage)
    requires Listening(stage) ==> Listening(s.calls[n].stage)
    requires stage.Ended? && stage.outcome.Answered? ==> s.calls[n].slot == Some(stage.outcome.response) == Due(s, n)
    ensures Inv(Move(s, n, stage))
  {
  }

  /** A call that ends by taking its id out of the map. */
  lemma CleanUpKeepsInv(s: State, n: nat, outcome: Outcome)
    requires Inv(s) && n < |s.calls| && (outcome.BadGateway? || outcome.GatewayTimeout?)
    ensures Inv(CleanUp(s, n, outcome))
  {
  }

  /** The branch for a sender that was dropped unused is never taken. */
  lemma SenderNeverDropped(s: State, n: nat)
    requires Inv(s)
    ensures !Enabled(s, NoticeDrop(n))
  {
  }

  lemma StepKeepsInv(s: State, step: Step)
    requires Inv(s) && Enabled(s, step)
    ensures Inv(Do(s, step))
  {
    match step
    case Register(id) => RegisterKeepsInv(s, id);
    case Arrive(id, response) => ArriveKeepsInv(s, id, response);
    case PrepareFailed(n, bodyRead) => MoveKeepsInv(s, n, Ended(if bodyRead then InternalError else BadRequest));
    case Prepared(n) => MoveKeepsInv(s, n, Sending);
    case Sent(n) => MoveKeepsInv(s, n, Waiting);
    case SendRefused(n) => MoveKeepsInv(s, n, SendFailed);
    case CleanSendFailure(n) => CleanUpKeepsInv(s, n, BadGateway);
    case Receive(n) => MoveKeepsInv(s, n, Ended(Answered(s.calls[n].slot.value)));
    case NoticeDrop(n) => SenderNeverDropped(s, n);
    case TimeOut(n) => MoveKeepsInv(s, n, TimedOut);
    case CleanTimeOut(n) => CleanUpKeepsInv(s, n, GatewayTimeout);
    case Abandon(n) => MoveKeepsInv(s, n, Abandoned);
  }

  // ----- Whole runs -----

  ghost predicate Possible(s: State, steps: seq<Step>)
    decreases |steps|
  {
    steps == [] || (Enabled(s, steps[0]) && Possible(Do(s, steps[0]), steps[1..]))
  }

  ghost function After(s: State, steps: seq<Step>): State
    requires Possible(s, steps)
    decreases |steps|
  {
    if steps == [] then s else After(Do(s, steps[0]), steps[1..])
  }

  lemma {:induction false} RunKeepsInv(s: State, steps: seq<Step>)
    requires Inv(s) && Possible(s, steps)
    ensures Inv(After(s, steps))
    decreases |steps|
  {
    if steps != [] {
      StepKeepsInv(s, steps[0]);
      RunKeepsInv(Do(s, steps[0]), steps[1..]);
    }
  }

  /** After any interleaving of calls, responses, timeouts and closed connections: an
      answered call was answered with the first response bearing its id; a call still
      waiting has a response in hand exactly if one has arrived; no call ever ended for a
      dropped sender; and a call that is over left its id behind exactly if it was
      abandoned or failed between registering and sending, and no response with that id
      has come since it registered. */
  lemma CorrelationAfterAnyRun(steps: seq<Step>, n: nat)
    requires Possible(START, steps) && n < |After(START, steps).calls|
    ensures var s := After(START, steps); var c := s.calls[n];
      && (c.stage.Ended? && c.stage.outcome.Answered? ==> Due(s, n) == Some(c.stage.outcome.response))
      && (c.stage.Waiting? ==> c.slot == Due(s, n))
      && c.stage != Ended(SenderDropped) && !Enabled(s, NoticeDrop(n))
      && (c.stage.Ended? ==>
            (c.id in s.responses <==>
             (c.stage.outcome.BadRequest? || c.stage.outcome.InternalError?) && Due(s, n).None?))
      && (c.stage.Abandoned? ==> (c.id in s.responses <==> Due(s, n).None?))
  {
    RunKeepsInv(START, steps);
    SenderNeverDropped(After(START, steps), n);
  }

  lemma StepKeepsOver(s: State, step: Step, n: nat)
    requires Enabled(s, step) && n < |s.calls| && Over(s.calls[n].stage)
    ensures n < |Do(s, step).calls| && Do(s, step).calls[n] == s.calls[n]
  {
  }

  /** A call is over once: its outcome, and so the one response it may have received, never
      changes again. */
  lemma {:induction false} OutcomeIsFinal(s: State, steps: seq<Step>, n: nat)
    requires Possible(s, steps) && n < |s.calls| && Over(s.calls[n].stage)
    ensures n < |After(s, steps).calls| && After(s, steps).calls[n] == s.calls[n]
    decreases |steps|
  {
    if steps != [] {
      StepKeepsOver(s, steps[0], n);
      OutcomeIsFinal(Do(s, steps[0]), steps[1..], n);
    }
  }

  /** An id that a call which is over left in the map stays there through any run, until
      a response with that id arrives. */
  lemma LeftUntilAnswered(s: State, steps: seq<Step>, n: nat)
    requires Inv(s) && Possible(s, steps) && n < |s.calls| && Over(s.calls[n].stage)
    requires s.calls[n].id in s.responses
    ensures var s' := After(s, steps);
      n < |s'.calls| && (s.calls[n].id in s'.responses <==> Due(s', n).None?)
  {
    RunKeepsInv(s, steps);
    OutcomeIsFinal(s, steps, n);
  }

  lemma {:induction false} Append(s: State, steps: seq<Step>, last: Step)
    requires Possible(s, steps) && Enabled(After(s, steps), last)
    ensures Possible(s, steps + [last]) && After(s, steps + [last]) == Do(After(s, steps), last)
    decreases |steps|
  {
    if steps == [] {
      assert [last][1..] == [];
    } else {
      assert (steps + [last])[1..] == steps[1..] + [last];
      Append(Do(s, steps[0]), steps[1..], last);
    }
  }

  /** A visitor that closes the connection while its call waits leaves the id behind. */
  lemma LeftoverIsReachable(id: RequestId) returns (steps: seq<Step>)
    ensures Possible(START, steps)
    ensures var s := After(START, steps); |s.calls| == 1 && s.calls[0].stage == Abandoned && id in s.responses
  {
    Append(START, [], Register(id));
    steps := [] + [Register(id)];
    Append(START, steps, Prepared(0));
    steps := steps + [Prepared(0)];
    Append(START, steps, Sent(0));
    steps := steps + [Sent(0)];
    Append(START, steps, Abandon(0));
    steps := steps + [Abandon(0)];
  }

  // ----- What the steps of a run did -----

  lemma {:induction false} SplitLast(s: State, steps: seq<Step>)
    requires Possible(s, steps) && steps != []
    ensures var n := |steps| - 1;
      Possible(s, steps[..n]) && Enabled(After(s, steps[..n]), steps[n])
      && After(s, steps) == Do(After(s, steps[..n]), steps[n])
    decreases |steps|
  {
    var n := |steps| - 1;
    if n > 0 {
      SplitLast(Do(s, steps[0]), steps[1..]);
      assert steps[1..][..n - 1] == steps[..n][1..];
    }
  }

  function IdOf(step: Step): seq<RequestId> {
    if step.Register? then [step.id] else []
  }

  function ArrivalOf(step: Step): seq<(RequestId, Bytes)> {
    if step.Arrive? then [(step.id, step.response)] else []
  }

  /** The ids of the calls a run registered, and the responses that arrived, in order. */
  function IdsOf(steps: seq<Step>): seq<RequestId> {
    if steps == [] then [] else IdOf(steps[0]) + IdsOf(steps[1..])
  }

  function ArrivalsOf(steps: seq<Step>): seq<(RequestId, Bytes)> {
    if steps == [] then [] else ArrivalOf(steps[0]) + ArrivalsOf(steps[1..])
  }

  function Ids(s: State): (r: seq<RequestId>)
    ensures |r| == |s.calls| && forall n :: 0 <= n < |s.calls| ==> r[n] == s.calls[n].id
  {
    seq(|s.calls|, n requires 0 <= n < |s.calls| => s.calls[n].id)
  }

  lemma Associate<T>(a: seq<T>, b: seq<T>, c: seq<T>)
    ensures (a + b) + c == a + (b + c)
  {
  }

  lemma StepRegisters(s: State, step: Step)
    requires Enabled(s, step)
    ensures Ids(Do(s, step)) == Ids(s) + IdOf(step)
  {
  }

  /** The calls are those a run registered, in order. */
  lemma {:induction false} CallsAreRegistered(s: State, steps: seq<Step>)
    requires Possible(s, steps)
    ensures Ids(After(s, steps)) == Ids(s) + IdsOf(steps)
    decreases |steps|
  {
    if steps != [] {
      StepRegisters(s, steps[0]);
      CallsAreRegistered(Do(s, steps[0]), steps[1..]);
      Associate(Ids(s), IdOf(steps[0]), IdsOf(steps[1..]));
    }
  }

  lemma StepArrives(s: State, step: Step)
    requires Enabled(s, step)
    ensures Do(s, step).arrivals == s.arrivals + ArrivalOf(step)
  {
  }

  /** And the responses are those that arrived. */
  lemma {:induction false} ArrivalsAreRecorded(s: State, steps: seq<Step>)
    requires Possible(s, steps)
    ensures After(s, steps).arrivals == s.arrivals + ArrivalsOf(steps)
    decreases |steps|
  {
    if steps != [] {
      StepArrives(s, steps[0]);
      ArrivalsAreRecorded(Do(s, steps[0]), steps[1..]);
      Associate(s.arrivals, ArrivalOf(steps[0]), ArrivalsOf(steps[1..]));
    }
  }

  predicate Has(s: State, n: nat, outcome: Outcome) {
    AtStage(s, n, Ended(outcome))
  }

  predicate WasAnswered(s: State, n: nat) {
    n < |s.calls| && s.calls[n].stage.Ended? && s.calls[n].stage.outcome.Answered?
  }

  /** The call ran out of time: it is about to clean up, or ended with Gateway Timeout. */
  predicate RanOut(s: State, n: nat) {
    AtStage(s, n, TimedOut) || Has(s, n, GatewayTimeout)
  }

  /** The tunnel would not take the request: about to clean up, or ended with Bad Gateway. */
  predicate WasRefused(s: State, n: nat) {
    AtStage(s, n, SendFailed) || Has(s, n, BadGateway)
  }

  /** The tunnel has taken the request, and the visitor has not gone away. */
  predicate WasSent(s: State, n: nat) {
    AtStage(s, n, Waiting) || WasAnswered(s, n) || RanOut(s, n)
  }

  predicate WasPrepared(s: State, n: nat) {
    AtStage(s, n, Sending) || WasSent(s, n) || WasRefused(s, n)
  }

  /** One step takes a call exactly where the handler's code goes from there. */
  lemma StepLeadsTo(s: State, step: Step, n: nat)
    requires Enabled(s, step) && !step.NoticeDrop?
    ensures var s' := Do(s, step);
      && (Has(s', n, BadRequest) <==> Has(s, n, BadRequest) || step == PrepareFailed(n, false))
      && (Has(s', n, InternalError) <==> Has(s, n, InternalError) || step == PrepareFailed(n, true))
      && (Has(s', n, BadGateway) <==> Has(s, n, BadGateway) || step == CleanSendFailure(n))
      && (Has(s', n, GatewayTimeout) <==> Has(s, n, GatewayTimeout) || step == CleanTimeOut(n))
      && (WasAnswered(s', n) <==> WasAnswered(s, n) || step == Receive(n))
      && (AtStage(s', n, Abandoned) <==> AtStage(s, n, Abandoned) || step == Abandon(n))
  {
  }

  lemma StepTimesOut(s: State, step: Step, n: nat)
    requires Enabled(s, step) && !step.NoticeDrop?
    ensures RanOut(Do(s, step), n) <==> (RanOut(s, n) && step != Abandon(n)) || step == TimeOut(n)
  {
  }

  lemma StepRefuses(s: State, step: Step, n: nat)
    requires Enabled(s, step) && !step.NoticeDrop?
    ensures WasRefused(Do(s, step), n) <==> (WasRefused(s, n) && step != Abandon(n)) || step == SendRefused(n)
  {
  }

  lemma StepSends(s: State, step: Step, n: nat)
    requires Enabled(s, step) && !step.NoticeDrop?
    ensures WasSent(Do(s, step), n) <==> (WasSent(s, n) && step != Abandon(n)) || step == Sent(n)
  {
  }

  lemma StepPrepares(s: State, step: Step, n: nat)
    requires Enabled(s, step) && !step.NoticeDrop?
    ensures WasPrepared(Do(s, step), n) <==> (WasPrepared(s, n) && step != Abandon(n)) || step == Prepared(n)
  {
  }

  /** How each call ends, by the steps taken: Bad Request exactly if its body could not be
      read, Internal Server Error exactly if it could not be encoded, an answer exactly if
      it received one, Bad Gateway and Gateway Timeout exactly after cleaning up for them;
      and abandoned exactly if its visitor went away. */
  lemma {:induction false} EndsBySteps(steps: seq<Step>, n: nat)
    requires Possible(START, steps)
    ensures var s := After(START, steps);
      && (Has(s, n, BadRequest) <==> PrepareFailed(n, false) in steps)
      && (Has(s, n, InternalError) <==> PrepareFailed(n, true) in steps)
      && (Has(s, n, BadGateway) <==> CleanSendFailure(n) in steps)
      && (Has(s, n, GatewayTimeout) <==> CleanTimeOut(n) in steps)
      && (WasAnswered(s, n) <==> Receive(n) in steps)
      && (AtStage(s, n, Abandoned) <==> Abandon(n) in steps)
    decreases |steps|
  {
    if steps != [] {
      var k := |steps| - 1;
      SplitLast(START, steps);
      RunKeepsInv(START, steps[..k]);
      var s := After(START, steps[..k]);
      if steps[k].NoticeDrop? {
        SenderNeverDropped(s, steps[k].n);
      }
      StepLeadsTo(s, steps[k], n);
      EndsBySteps(steps[..k], n);
      assert forall x :: x in steps <==> x == steps[k] || x in steps[..k];
    }
  }

  /** How far a call that was not abandoned has come, by the steps taken. */
  lemma {:induction false} StagesBySteps(steps: seq<Step>, n: nat)
    requires Possible(START, steps)
    ensures var s := After(START, steps);
      && (RanOut(s, n) <==> TimeOut(n) in steps && Abandon(n) !in steps)
      && (WasRefused(s, n) <==> SendRefused(n) in steps && Abandon(n) !in steps)
      && (WasSent(s, n) <==> Sent(n) in steps && Abandon(n) !in steps)
      && (WasPrepared(s, n) <==> Prepared(n) in steps && Abandon(n) !in steps)
    decreases |steps|
  {
    if steps != [] {
      var k := |steps| - 1;
      SplitLast(START, steps);
      RunKeepsInv(START, steps[..k]);
      var s := After(START, steps[..k]);
      if steps[k].NoticeDrop? {
        SenderNeverDropped(s, steps[k].n);
      }
      StepTimesOut(s, steps[k], n);
      StepRefuses(s, steps[k], n);
      StepSends(s, steps[k], n);
      StepPrepares(s, steps[k], n);
      StagesBySteps(steps[..k], n);
      EndsBySteps(steps[..k], n);
      assert forall x :: x in steps <==> x == steps[k] || x in steps[..k];
    }
  }

  /** So a call that ended has the status of what happened to it: Gateway Timeout exactly
      if it timed out, Bad Gateway exactly if the tunnel refused it, Bad Request or Internal
      Server Error exactly if it failed in that way before it was sent. */
  lemma StatusIsRight(steps: seq<Step>, n: nat)
    requires Possible(START, steps) && n < |After(START, steps).calls|
    requires After(START, steps).calls[n].stage.Ended?
    ensures var outcome := After(START, steps).calls[n].stage.outcome;
      && (outcome == GatewayTimeout <==> TimeOut(n) in steps)
      && (outcome == BadGateway <==> SendRefused(n) in steps)
      && (outcome == BadRequest <==> PrepareFailed(n, false) in steps)
      && (outcome == InternalError <==> PrepareFailed(n, true) in steps)
      && (outcome.Answered? <==> Receive(n) in steps)
  {
    EndsBySteps(steps, n);
    StagesBySteps(steps, n);
  }

  // ----- The handlers themselves, updating the shared map in place -----

  /** The map names only calls that exist. */
  ghost predicate NamesCalls(s: State) {
    forall id :: id in s.responses ==> s.responses[id] < |s.calls|
  }

  /** Any prefix of a run is a run, ends where the next step starts, and names only calls
      that exist. */
  lemma {:induction false} Prefix(s: State, steps: seq<Step>, n: nat)
    requires Inv(s) && Possible(s, steps) && n <= |steps|
    ensures Possible(s, steps[..n])
    ensures NamesCalls(After(s, steps[..n]))
    ensures n < |steps| ==> Enabled(After(s, steps[..n]), steps[n]) && !steps[n].NoticeDrop?
    ensures n < |steps| ==>
      Possible(s, steps[..n + 1]) && After(s, steps[..n + 1]) == Do(After(s, steps[..n]), steps[n])
    decreases |steps|
  {
    if n > 0 {
      StepKeepsInv(s, steps[0]);
      Prefix(Do(s, steps[0]), steps[1..], n - 1);
      assert steps[..n][1..] == steps[1..][..n - 1];
      assert After(s, steps[..n]) == After(Do(s, steps[0]), steps[1..][..n - 1]);
      if n < |steps| {
        assert steps[..n + 1][1..] == steps[1..][..n];
      }
    } else if steps != [] {
      assert steps[..1][1..] == [];
      if steps[0].NoticeDrop? {
        SenderNeverDropped(s, steps[0].n);
      }
    }
  }

  /** The pending-response map and the calls in progress. Each method is one handler's
      code from an await to the next. */
  class PendingResponses {
    var calls: seq<Call>
    var responses: map<RequestId, nat>
    var arrivals: seq<(RequestId, Bytes)> // kept only to state what the answers mean

    ghost function View(): State
      reads this
    {
      State(calls, responses, arrivals)
    }

    constructor ()
      ensures View() == START
    {
      calls, responses, arrivals := [], map[], [];
    }

    method SetStage(n: nat, stage: Stage)
      requires n < |calls|
      modifies this`calls
      ensures View() == Move(old(View()), n, stage)
    {
      calls := calls[n := calls[n].(stage := stage)];
    }

    /** `forward_via_tunnel` up to and including the insertion of its sender. */
    method RegisterCall(id: RequestId) returns (n: nat)
      requires Enabled(View(), Register(id))
      modifies this
      ensures View() == Do(old(View()), Register(id)) && n == |old(calls)|
    {
      n := |calls|;
      responses := responses[id := n];
      calls := calls + [Call(id, Preparing, None, |arrivals|)];
    }

    /** Reads the body and encodes the message; either can end the call. */
    method Prepare(n: nat, bodyRead: bool, encoded: bool)
      requires AtStage(View(), n, Preparing)
      modifies this
      ensures View() == Do(old(View()), if bodyRead && encoded then Prepared(n) else PrepareFailed(n, bodyRead))
    {
      if !bodyRead {
        SetStage(n, Ended(BadRequest));
      } else if !encoded {
        SetStage(n, Ended(InternalError));
      } else {
        SetStage(n, Sending);
      }
    }

    method Send(n: nat, accepted: bool)
      requires AtStage(View(), n, Sending)
      modifies this
      ensures View() == Do(old(View()), if accepted then Sent(n) else SendRefused(n))
    {
      SetStage(n, if accepted then Waiting else SendFailed);
    }

    /** Takes the call's id out of the map and ends it. */
    method Finish(n: nat, outcome: Outcome)
      requires n < |calls|
      modifies this
      ensures View() == CleanUp(old(View()), n, outcome)
    {
      responses := responses - {calls[n].id};
      SetStage(n, Ended(outcome));
    }

    /** The awaited one-shot: a response in the channel wins over an expired timer. */
    method Await(n: nat, expired: bool) returns (moved: bool)
      requires AtStage(View(), n, Waiting)
      modifies this
      ensures old(calls[n].slot.Some?) ==> moved && View() == Do(old(View()), Receive(n))
      ensures old(calls[n].slot.None?) && expired ==> moved && View() == Do(old(View()), TimeOut(n))
      ensures old(calls[n].slot.None?) && !expired ==> !moved && View() == old(View())
    {
      moved := true;
      if calls[n].slot.Some? {
        SetStage(n, Ended(Answered(calls[n].slot.value)));
      } else if expired {
        SetStage(n, TimedOut);
      } else {
        moved := false;
      }
    }

    /** What the two error branches do besides marking the tunnel, which the failed send
        does afterwards and the timeout before: take the id out and end the call. */
    method CleanAfterError(n: nat)
      requires AtStage(View(), n, SendFailed) || AtStage(View(), n, TimedOut)
      modifies this
      ensures View() == Do(old(View()), if old(calls[n].stage.TimedOut?) then CleanTimeOut(n) else CleanSendFailure(n))
    {
      Finish(n, if calls[n].stage.TimedOut? then GatewayTimeout else BadGateway);
    }

    /** The visitor closes the connection, and the server drops the handler's future. */
    method Drop(n: nat)
      requires Enabled(View(), Abandon(n))
      modifies this
      ensures View() == Do(old(View()), Abandon(n))
    {
      SetStage(n, Abandoned);
    }

    /** The Response arm of `handle_socket`: takes the sender out and sends, without an
        await in between; a dropped receiver makes the send fail. */
    method HandleResponse(id: RequestId, response: Bytes)
      requires NamesCalls(View())
      modifies this
      ensures View() == Do(old(View()), Arrive(id, response))
      ensures Inv(old(View())) ==> Inv(View())
    {
      if Inv(View()) {
        ArriveKeepsInv(View(), id, response);
      }
      arrivals := arrivals + [(id, response)];
      if id in responses {
        var n := responses[id];
        responses := responses - {id};
        if Listening(calls[n].stage) {
          calls := calls[n := calls[n].(slot := Some(response))];
        } else {
          assert calls[n := calls[n]] == calls;
        }
      }
    }

    /** Whatever step is possible, running the handler's code takes it; the branch for a
        dropped sender has none, because it is never taken. */
    method Perform(step: Step)
      requires Enabled(View(), step) && !step.NoticeDrop?
      requires NamesCalls(View())
      modifies this
      ensures View() == Do(old(View()), step)
    {
      match step {
        case Register(id) => var _ := RegisterCall(id);
        case PrepareFailed(n, bodyRead) => Prepare(n, bodyRead, false);
        case Prepared(n) => Prepare(n, true, true);
        case Sent(n) => Send(n, true);
        case SendRefused(n) => Send(n, false);
        case CleanSendFailure(n) => CleanAfterError(n);
        case Arrive(id, response) => HandleResponse(id, response);
        case Receive(n) => var _ := Await(n, false);
        case TimeOut(n) => var _ := Await(n, true);
        case CleanTimeOut(n) => CleanAfterError(n);
        case Abandon(n) => Drop(n);
      }
    }

    /** The handlers' code run in any order they allow: the map ends where the run does,
        and so keeps what every run keeps. */
    static method Run(steps: seq<Step>) returns (p: PendingResponses)
      requires Possible(START, steps)
      ensures fresh(p) && p.View() == After(START, steps) && Inv(p.View())
    {
      p := new PendingResponses();
      for n := 0 to |steps|
        invariant fresh(p) && Possible(START, steps[..n]) && p.View() == After(START, steps[..n])
      {
        Prefix(START, steps, n);
        p.Perform(steps[n]);
      }
      assert steps[..|steps|] == steps;
      RunKeepsInv(START, steps);
    }
  }
}
