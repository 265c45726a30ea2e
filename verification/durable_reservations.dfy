/**
 The `reserved` map of the durable book: packet ids to the deliveries that hold them. It
 is changed where the source changes it, and what it holds is exactly the ids of the
 active deliveries and the one of an admission that is still on its way to the store.
 */
module DurableReservations {
  import opened Optional
  import opened DeliveryRecords
  import opened PacketIds
  import opened DurableMachine

  predicate Reserves(active: map<string, Handle>, reserved: map<int, string>, gate: Gate) {
    && (forall id :: id in active ==> active[id].packetId in reserved && reserved[active[id].packetId] == id)
    && (gate.Admitting? ==>
          && gate.message.packetId in reserved && reserved[gate.message.packetId] == gate.message.id
          && gate.message.id !in active)
    && (forall p :: p in reserved ==>
          || (reserved[p] in active && active[reserved[p]].packetId == p)
          || (gate.Admitting? && gate.message.packetId == p))
  }

  predicate Reservations(c: Client) { Reserves(c.active, c.reserved, c.gate) }

  function ActiveIds(c: Client): set<int> { set id | id in c.active :: c.active[id].packetId }

  /** No two active deliveries share a packet id, and what is reserved beyond theirs is the gate holder's. */
  lemma ReservedExactly(c: Client)
    requires Reservations(c)
    ensures c.reserved.Keys == ActiveIds(c) + Provisional(c.gate) && ActiveIds(c) !! Provisional(c.gate)
    ensures forall a, b :: a in c.active && b in c.active && a != b ==> c.active[a].packetId != c.active[b].packetId
  {
    forall p | p in c.reserved.Keys ensures p in ActiveIds(c) + Provisional(c.gate) {
      if c.reserved[p] in c.active && c.active[c.reserved[p]].packetId == p {
        assert p in ActiveIds(c);
      }
    }
  }

  /** A packet id outside the map is nobody's. */
  lemma FreeIds(c: Client, id: int)
    requires Reservations(c) && id !in c.reserved
    ensures forall k :: k in c.active ==> c.active[k].packetId != id
    ensures c.gate.Admitting? ==> c.gate.message.packetId != id
  {
  }

  /** A step that neither begins nor ends an admission and renames nothing. */
  predicate SameHolders(c: Client, d: Client) {
    && d.reserved == c.reserved && d.active.Keys == c.active.Keys
    && (forall id :: id in c.active ==> d.active[id].packetId == c.active[id].packetId)
    && d.gate.Admitting? == c.gate.Admitting? && (c.gate.Admitting? ==> d.gate.message == c.gate.message)
  }

  lemma HoldersKeep(c: Client, d: Client)
    requires Reservations(c) && SameHolders(c, d)
    ensures Reservations(d)
  {
    assert forall id :: id in d.active <==> id in c.active;
  }

  lemma AbortHolders(c: Client)
    ensures SameHolders(c, Aborted(c)) && SameHolders(c, Stopped(c))
  {
    assert Aborted(c).active.Keys == c.active.Keys;
  }

  /** Reservation comes before the first suspension. */
  lemma AdmitReserves(c: Client, config: Config, id: string, topic: string, payload: seq<int>, expires: int, now: int)
    requires Reservations(c) && IsId(c.cursor)
    ensures Reservations(Admit(c, config, id, topic, payload, expires, now))
  {
    AllocatedIsFree(c.cursor, c.reserved.Keys + c.session.pending);
  }

  /** A failed admission takes back its own reservation and no other. */
  lemma RefuseReserves(c: Client)
    requires Reservations(c)
    ensures Reservations(Refuse(c))
  {
    if Uncommitted(c.gate) {
      var d := Withdrawn(c);
      assert Reservations(d);
      AbortHolders(d);
      HoldersKeep(d, Refuse(c));
    }
  }

  lemma EndedReserves(c: Client, id: string, purpose: Purpose)
    requires Reservations(c) && id in c.active && !c.gate.Admitting?
    ensures Reservations(Ended(c, id, purpose))
  {
    var d := Terminated(c, id, if purpose.ForWrite? || purpose.LastLook? then Resting else c.writer);
    HoldersKeep(c, d);
    AbortHolders(d);
    HoldersKeep(d, Aborted(d));
  }

  lemma PublishedReserves(c: Client, m: Message, g: nat, k: nat)
    requires Reservations(c) && c.gate == Admitting(m, g, Some(k))
    ensures Reservations(Published(c, m, g, k))
  {
    AddedReserves(c.active, c.reserved, c.gate, Joining(m.id, g, false), Admitted(m, k));
    AddedReserves(c.active, c.reserved, c.gate, Free, Parked(Admitted(m, k)));
  }

  /** The reservation of an admission becomes its delivery's. */
  lemma AddedReserves(active: map<string, Handle>, reserved: map<int, string>, before: Gate, after: Gate, h: Handle)
    requires Reserves(active, reserved, before) && before.Admitting? && !after.Admitting?
    requires h.packetId == before.message.packetId
    ensures Reserves(active[before.message.id := h], reserved, after)
  {
  }

  /** An acknowledged delivery gives its packet id back. */
  lemma ReleasedReserves(c: Client, id: string, code: int)
    requires Reservations(c) && id in c.active && !c.gate.Admitting?
    ensures Reservations(Released(c, id, code))
  {
  }

  lemma CheckedReserves(c: Client, id: string, purpose: Purpose, verdict: Expiry)
    requires Reservations(c) && id in c.active && c.gate.Checking?
    ensures Reservations(Checked(c, id, purpose, verdict))
  {
    if !verdict.StillPending? || purpose.LastLook? {
      EndedReserves(c, id, purpose);
    } else {
      HoldersKeep(c, Checked(c, id, purpose, verdict));
    }
  }

  lemma HandleReserves(c: Client, id: string, generation: nat, slots: nat)
    requires Reservations(c) && id in c.active && !c.gate.Admitting?
    ensures Reservations(AttachTo(c, id, generation, slots)) && Reservations(MarkedStarted(c, id))
  {
    HandleHolders(c, id, generation, slots);
    HoldersKeep(c, AttachTo(c, id, generation, slots));
    HoldersKeep(c, MarkedStarted(c, id));
  }

  lemma HandleHolders(c: Client, id: string, generation: nat, slots: nat)
    requires id in c.active && !c.gate.Admitting?
    ensures SameHolders(c, AttachTo(c, id, generation, slots)) && SameHolders(c, MarkedStarted(c, id))
  {
  }

  lemma ResumeReserves(c: Client)
    requires Reservations(c)
    ensures Reservations(Resume(c))
  {
    if c.gate.Admitting? {
      if c.gate.stored.Some? {
        PublishedReserves(c, c.gate.message, c.gate.generation, c.gate.stored.value);
      }
    } else if !c.gate.Free? && c.gate.id in c.active {
      match c.gate {
        case Acking(id, _, code, _) => ReleasedReserves(c, id, code);
        case Checking(id, purpose, verdict) =>
          if verdict.Some? {
            CheckedReserves(c, id, purpose, verdict.value);
          }
        case Joining(id, g, _) => HandleReserves(c, id, g, c.session.slots);
        case Reattaching(id, g, _) => HandleReserves(c, id, g, c.session.slots + 1);
        case Marking(id, _) => HandleReserves(c, id, 0, 0);
      }
    }
  }

  /** Steps of the writer, the reader and the watchdog touch no identifier. */
  predicate Local(input: Input) {
    input.Item? || input.Enter? || input.Cancelled? || input.Acknowledgement? || input.Watchdog?
  }

  lemma LocalHolders(c: Client, config: Config, input: Input)
    requires Local(input)
    ensures SameHolders(c, ClientStep(c, config, input))
  {
  }

  /** Neither do those of requests and of the supervisor. */
  predicate Remote(input: Input) {
    || input.Ordinary? || input.Completed? || input.Disconnecting? || input.Connected? || input.Replaying?
    || input.Restored?
  }

  lemma RequestHolders(c: Client, config: Config)
    ensures SameHolders(c, Request(c, config))
  {
  }

  lemma SupervisorHolders(c: Client)
    ensures SameHolders(c, Connect(c)) && SameHolders(c, ReplayNext(c)) && SameHolders(c, Ready(c))
  {
  }

  lemma RemoteHolders(c: Client, config: Config, input: Input)
    requires Remote(input)
    ensures SameHolders(c, ClientStep(c, config, input))
  {
    if input.Ordinary? {
      RequestHolders(c, config);
    } else if input.Connected? || input.Replaying? || input.Restored? {
      SupervisorHolders(c);
    }
  }

  lemma EndingHolders(c: Client, config: Config, input: Input)
    requires input.Lost? || input.Stopping?
    ensures SameHolders(c, ClientStep(c, config, input))
  {
    AbortHolders(c);
  }

  /** Every step of a running client keeps the map exact. */
  lemma StepReserves(c: Client, config: Config, input: Input)
    requires Reservations(c) && IsId(c.cursor)
    ensures Reservations(ClientStep(c, config, input))
  {
    match input {
      case Admission(id, topic, payload, expires, now) => AdmitReserves(c, config, id, topic, payload, expires, now);
      case Refused => RefuseReserves(c);
      case Resumed => ResumeReserves(c);
      case Settling =>
      case _ =>
        if Local(input) {
          LocalHolders(c, config, input);
        } else if Remote(input) {
          RemoteHolders(c, config, input);
        } else if input.Lost? || input.Stopping? {
          EndingHolders(c, config, input);
        }
        HoldersKeep(c, ClientStep(c, config, input));
    }
  }

  lemma WriteReserves(s: System, now: int)
    requires s.client.Some? && Reservations(s.client.value)
    ensures var t := WriteOut(s, now); t.client.Some? && Reservations(t.client.value)
  {
    var c := s.client.value;
    var rested, aborted := c.(writer := Resting), Aborted(c).(writer := Resting);
    WriteOutMoves(s, c, now);
    AbortHolders(c);
    HoldersKeep(c, rested);
    HoldersKeep(c, aborted);
    if c.gate.Free? && c.writer.Cleared? {
      HoldersKeep(c, c.(gate := Checking(c.writer.id, LastLook(now), None)));
    }
  }

  /** What the recheck before a socket write may do to the process. */
  lemma WriteOutMoves(s: System, c: Client, now: int)
    requires s.client == Some(c)
    ensures WriteOut(s, now).client.Some?
    ensures var d := WriteOut(s, now).client.value;
            || d == c || d == c.(writer := Resting) || d == Aborted(c).(writer := Resting)
            || (c.gate.Free? && MayWrite(c) && d == c.(gate := Checking(c.writer.id, LastLook(now), None)))
  {
  }
}
