/**
 One admitted QoS 1 delivery (`DeliveryRecord` in `delivery.mbt`): a phase machine
 that spans connection generations and must tell "not sent" from "outcome unknown".
 */
module DeliveryRecords {
  import opened Optional

  datatype ClientError =
    | Closed | Backpressure | DeliveryRejected | BrokerSessionLost | BrokerRejected(code: int) | Failure(text: string)

  datatype DeliveryPhase =
    | Queued
    | AwaitingAck
    | AwaitingReconnect(reason: string)
    | Acknowledged
    | Rejected(code: int)
    | TerminalNotSent(reason: string)
    | TerminalOutcomeUnknown(reason: string)

  predicate Terminal(p: DeliveryPhase) {
    p.Acknowledged? || p.Rejected? || p.TerminalNotSent? || p.TerminalOutcomeUnknown?
  }

  /** The mutable part of a record. */
  datatype RecordState = RecordState(
    topic: Option<string>, payload: Option<seq<int>>, phase: DeliveryPhase, attempts: nat, generation: Option<int>,
    everStarted: bool, startDeadline: Option<int>, ackDeadline: Option<int>,
    cause: Option<ClientError>, acknowledgedReason: Option<int>)

  function Attached(s: RecordState, generation: int, startDeadline: int): RecordState {
    s.(attempts := s.attempts + 1, generation := Some(generation), startDeadline := Some(startDeadline),
       ackDeadline := None, cause := None, phase := Queued)
  }

  function RolledBack(s: RecordState): RecordState {
    s.(attempts := 0, generation := None, startDeadline := None, ackDeadline := None, cause := None, phase := Queued)
  }

  function Started(s: RecordState): RecordState {
    s.(everStarted := true, startDeadline := None, phase := AwaitingAck)
  }

  function Written(s: RecordState, deadline: int): RecordState {
    if Terminal(s.phase) then s else s.(ackDeadline := Some(deadline))
  }

  function Detached(s: RecordState, generation: int, reason: string): RecordState {
    if Terminal(s.phase) || s.generation != Some(generation) then s
    else s.(generation := None, startDeadline := None, ackDeadline := None, phase := AwaitingReconnect(reason))
  }

  function FinishedAcknowledged(s: RecordState, reason: Option<int>): RecordState {
    if Terminal(s.phase) then s
    else s.(startDeadline := None, ackDeadline := None, acknowledgedReason := reason, phase := Acknowledged,
            topic := None, payload := None)
  }

  function FinishedRejected(s: RecordState, code: int): RecordState {
    if Terminal(s.phase) then s
    else s.(startDeadline := None, ackDeadline := None, generation := None, phase := Rejected(code),
            cause := Some(BrokerRejected(code)), topic := None, payload := None)
  }

  function FinishedTerminal(s: RecordState, reason: string, cause: ClientError): RecordState {
    if Terminal(s.phase) then s
    else s.(startDeadline := None, ackDeadline := None, generation := None,
            phase := if s.everStarted then TerminalOutcomeUnknown(reason) else TerminalNotSent(reason),
            cause := Some(cause), topic := None, payload := None)
  }

  /** Content goes with the terminal phase, and the start mark with every phase that implies a transmission. */
  predicate Coherent(s: RecordState) {
    && (s.topic.Some? <==> !Terminal(s.phase)) && (s.payload.Some? <==> !Terminal(s.phase))
    && (s.phase.AwaitingAck? || s.phase.Acknowledged? || s.phase.Rejected? || s.phase.TerminalOutcomeUnknown?
        ==> s.everStarted)
    && (s.phase.TerminalNotSent? ==> !s.everStarted)
    && (s.phase.AwaitingReconnect? ==> s.generation.None?)
  }

  class DeliveryRecord {
    const deliveryId: string
    const packetId: int
    var topic: Option<string>
    var payload: Option<seq<int>>
    var phase: DeliveryPhase
    var attempts: nat
    var generation: Option<int>
    var everStarted: bool
    var startDeadline: Option<int>
    var ackDeadline: Option<int>
    var terminalCause: Option<ClientError>
    var acknowledgedReason: Option<int>

    function View(): RecordState
      reads this
    {
      RecordState(topic, payload, phase, attempts, generation, everStarted, startDeadline, ackDeadline,
                  terminalCause, acknowledgedReason)
    }

    constructor (deliveryId: string, packetId: int, topic: string, payload: seq<int>)
      ensures this.deliveryId == deliveryId && this.packetId == packetId
      ensures View() == Fresh(topic, payload)
    {
      this.deliveryId, this.packetId := deliveryId, packetId;
      this.topic, this.payload := Some(topic), Some(payload);
      phase, attempts, generation, everStarted := Queued, 0, None, false;
      startDeadline, ackDeadline, terminalCause, acknowledgedReason := None, None, None, None;
    }

    method Attach(generation: int, deadline: int)
      modifies this
      ensures View() == Attached(old(View()), generation, deadline)
      ensures everStarted == old(everStarted) && topic == old(topic) && payload == old(payload)
      ensures old(Coherent(View()) && !Terminal(phase)) ==> Coherent(View()) && !Terminal(phase)
    {
      attempts := attempts + 1;
      this.generation, startDeadline, ackDeadline := Some(generation), Some(deadline), None;
      terminalCause, phase := None, Queued;
    }

    method RollbackInitialAttach()
      modifies this
      ensures View() == RolledBack(old(View()))
      ensures everStarted == old(everStarted) && topic == old(topic) && payload == old(payload)
      ensures old(Coherent(View()) && !Terminal(phase)) ==> Coherent(View()) && !Terminal(phase)
    {
      attempts, generation, startDeadline, ackDeadline := 0, None, None, None;
      terminalCause, phase := None, Queued;
    }

    method MarkStarted()
      modifies this
      ensures View() == Started(old(View()))
      ensures everStarted && topic == old(topic) && payload == old(payload) && generation == old(generation)
      ensures old(Coherent(View()) && !Terminal(phase)) ==> Coherent(View()) && !Terminal(phase)
    {
      everStarted := true;
      startDeadline := None;
      phase := AwaitingAck;
    }

    method MarkWritten(deadline: int)
      modifies this
      ensures View() == Written(old(View()), deadline)
      ensures old(Terminal(phase)) ==> unchanged(this)
      ensures View().(ackDeadline := old(ackDeadline)) == old(View())
      ensures old(Coherent(View())) ==> Coherent(View())
    {
      if !Terminal(phase) {
        ackDeadline := Some(deadline);
      }
    }

    method Detach(generation: int, reason: string)
      modifies this
      ensures View() == Detached(old(View()), generation, reason)
      ensures old(Terminal(phase)) || old(this.generation) != Some(generation) ==> unchanged(this)
      ensures everStarted == old(everStarted) && topic == old(topic) && payload == old(payload)
      ensures Terminal(phase) == old(Terminal(phase)) && (Terminal(phase) || this.generation != Some(generation))
      ensures old(Coherent(View())) ==> Coherent(View())
    {
      if !Terminal(phase) && this.generation == Some(generation) {
        this.generation, startDeadline, ackDeadline := None, None, None;
        phase := AwaitingReconnect(reason);
      }
    }

    method FinishAcknowledged(reason: Option<int>)
      modifies this
      ensures View() == FinishedAcknowledged(old(View()), reason)
      ensures Terminal(phase) && everStarted == old(everStarted) && (old(Terminal(phase)) ==> unchanged(this))
      ensures old(Coherent(View()) && everStarted) ==> Coherent(View())
    {
      if !Terminal(phase) {
        startDeadline, ackDeadline, acknowledgedReason := None, None, reason;
        phase, topic, payload := Acknowledged, None, None;
      }
    }

    method FinishRejected(code: int)
      modifies this
      ensures View() == FinishedRejected(old(View()), code)
      ensures Terminal(phase) && everStarted == old(everStarted) && (old(Terminal(phase)) ==> unchanged(this))
      ensures old(Coherent(View()) && everStarted) ==> Coherent(View())
    {
      if !Terminal(phase) {
        startDeadline, ackDeadline, generation := None, None, None;
        phase, terminalCause := Rejected(code), Some(BrokerRejected(code));
        topic, payload := None, None;
      }
    }

    method FinishTerminal(reason: string, cause: ClientError)
      modifies this
      ensures View() == FinishedTerminal(old(View()), reason, cause)
      ensures Terminal(phase) && everStarted == old(everStarted) && (old(Terminal(phase)) ==> unchanged(this))
      ensures !old(Terminal(phase)) ==> (phase.TerminalNotSent? <==> !everStarted)
      ensures old(Coherent(View())) ==> Coherent(View())
    {
      if !Terminal(phase) {
        startDeadline, ackDeadline, generation := None, None, None;
        phase := if everStarted then TerminalOutcomeUnknown(reason) else TerminalNotSent(reason);
        terminalCause := Some(cause);
        topic, payload := None, None;
      }
    }
  }

  // ---------- a record over its whole life ----------

  /** The undo of a first attachment: what a full send queue leaves is the record as it was created. */
  lemma RollbackUndoes(topic: string, payload: seq<int>, generation: int, deadline: int)
    ensures RolledBack(Attached(Fresh(topic, payload), generation, deadline)) == Fresh(topic, payload)
  {
  }

  function Fresh(topic: string, payload: seq<int>): RecordState {
    RecordState(Some(topic), Some(payload), Queued, 0, None, false, None, None, None, None)
  }

  /** What the runtime does to a record, with the guards of its callers. */
  datatype Event =
    | Replay(generation: int, deadline: int)                // attach; terminal records are skipped
    | Write(generation: int)                                // `write_one` of one generation
    | WriteDone(deadline: int)
    | Teardown(generation: int, reason: string)             // `abort_with` of one generation
    | Puback(generation: int, code: int)                    // accepted below 128, rejected from 128 on
    | Shutdown(reason: string, cause: ClientError)

  /** A write reaches the socket only for the record's own generation and before any terminal phase. */
  predicate Transmits(s: RecordState, e: Event) {
    e.Write? && !Terminal(s.phase) && s.generation == Some(e.generation)
  }

  function Apply(s: RecordState, e: Event): RecordState {
    match e
    case Replay(g, deadline) => if Terminal(s.phase) then s else Attached(s, g, deadline)
    case Write(_) => if Transmits(s, e) then Started(s) else s
    case WriteDone(deadline) => Written(s, deadline)
    case Teardown(g, reason) => Detached(s, g, reason)
    case Puback(g, code) =>
      if s.generation != Some(g) || !s.phase.AwaitingAck? then s
      else if code < 128 then FinishedAcknowledged(s, Some(code)) else FinishedRejected(s, code)
    case Shutdown(reason, cause) => FinishedTerminal(s, reason, cause)
  }

  function Life(s: RecordState, events: seq<Event>): RecordState
    decreases |events|
  {
    if events == [] then s else Life(Apply(s, events[0]), events[1..])
  }

  /** The transmissions of a life, each with the DUP flag it carries. */
  function Transmissions(s: RecordState, events: seq<Event>): seq<bool>
    decreases |events|
  {
    if events == [] then []
    else (if Transmits(s, events[0]) then [s.everStarted] else []) + Transmissions(Apply(s, events[0]), events[1..])
  }

  /** DUP is set on every transmission of an admission but its very first. */
  predicate DupFrom(started: bool, flags: seq<bool>) {
    forall k :: 0 <= k < |flags| ==> flags[k] == (started || k > 0)
  }

  lemma DupGrows(started: bool, rest: seq<bool>)
    requires DupFrom(true, rest)
    ensures DupFrom(started, [started] + rest)
  {
  }

  /** One event keeps the record coherent, and it is started afterwards if it was or if it was just transmitted. */
  lemma ApplyCoherent(s: RecordState, e: Event)
    requires Coherent(s)
    ensures Coherent(Apply(s, e)) && Apply(s, e).everStarted == (s.everStarted || Transmits(s, e))
  {
  }

  /**
   Outcome soundness over any history of generations, writes, losses and shutdowns:
   a record ends "not sent" only if nothing was ever transmitted and "outcome
   unknown" only if something was; content is present exactly while it is not
   terminal; and DUP is set on every transmission but the first.
   */
  lemma {:induction false} OutcomeSound(s: RecordState, events: seq<Event>)
    requires Coherent(s)
    ensures var t := Life(s, events); var sent := Transmissions(s, events);
            && Coherent(t)
            && t.everStarted == (s.everStarted || sent != [])
            && (t.phase.TerminalNotSent? ==> sent == [] && !s.everStarted)
            && (t.phase.TerminalOutcomeUnknown? || t.phase.Acknowledged? ==> sent != [] || s.everStarted)
            && DupFrom(s.everStarted, sent)
    decreases |events|
  {
    if events != [] {
      var next := Apply(s, events[0]);
      var rest := Transmissions(next, events[1..]);
      ApplyCoherent(s, events[0]);
      OutcomeSound(next, events[1..]);
      if Transmits(s, events[0]) {
        assert Transmissions(s, events) == [s.everStarted] + rest;
        DupGrows(s.everStarted, rest);
      } else {
        assert Transmissions(s, events) == rest;
      }
    }
  }

  /** A terminal phase is final: no later event changes anything, so nothing is transmitted either. */
  lemma {:induction false} TerminalIsFinal(s: RecordState, events: seq<Event>)
    requires Terminal(s.phase)
    ensures Life(s, events) == s && Transmissions(s, events) == []
    decreases |events|
  {
    if events != [] {
      assert Apply(s, events[0]) == s;
      TerminalIsFinal(s, events[1..]);
    }
  }

  /** A generation that is not the record's own cannot detach, acknowledge or transmit it. */
  lemma {:induction false} StaleGenerations(s: RecordState, g: int, events: seq<Event>)
    requires s.generation != Some(g)
    requires forall k :: 0 <= k < |events| ==>
               (events[k].Teardown? || events[k].Write? || events[k].Puback?) && events[k].generation == g
    ensures Life(s, events) == s && Transmissions(s, events) == []
    decreases |events|
  {
    if events != [] {
      assert Apply(s, events[0]) == s;
      StaleGenerations(s, g, events[1..]);
    }
  }
}
