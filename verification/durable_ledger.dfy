/**
 Write-ahead accounting of the durable client: rows, handles, the gate holder, the
 writer and the history (admissions, packets on the wire, acknowledgements) agree in
 every reachable state, so a crash loses nothing that may have been sent.
 */
module DurableLedger {
  import opened Optional
  import opened DeliveryRecords
  import opened PacketIds
  import opened DurableMachine
  import opened DurableReservations
  import opened DurableCapacity

  /** The admission is acknowledged, or its row says it was possibly written. */
  ghost predicate Covered(s: System, k: nat) {
    k in s.acked || exists id :: id in s.store.rows && s.store.rows[id].sequence == k && s.store.rows[id].started
  }

  predicate NoWire(s: System, k: nat) { forall i :: 0 <= i < |s.wire| ==> s.wire[i].sequence != k }

  ghost predicate History(s: System) {
    && (forall k :: k in s.acked ==> k in s.log)
    && (forall k :: k in s.log ==> k < s.store.next)
    && (forall i :: 0 <= i < |s.wire| ==>
          s.wire[i].sequence in s.log && s.wire[i].message == s.log[s.wire[i].sequence]
              && Covered(s, s.wire[i].sequence))
    && (forall i, j :: 0 <= i < j < |s.wire| && s.wire[i].sequence == s.wire[j].sequence ==> s.wire[j].dup)
  }

  /** A row is the admission it came from, and an acknowledged admission has no row. */
  ghost predicate Rows(s: System) {
    && (forall id :: id in s.store.rows ==>
          && s.store.rows[id].message.id == id && IsId(s.store.rows[id].message.packetId)
          && s.store.rows[id].sequence in s.log && s.log[s.store.rows[id].sequence] == s.store.rows[id].message
          && s.store.rows[id].sequence !in s.acked)
    && (forall i, j :: i in s.store.rows && j in s.store.rows && i != j ==>
          s.store.rows[i].message.packetId != s.store.rows[j].message.packetId)
  }

  ghost predicate HandleOk(s: System, id: string, h: Handle) {
    && h.sequence in s.log
    && s.log[h.sequence].id == id && s.log[h.sequence].packetId == h.packetId && s.log[h.sequence].expires == h.expires
    && (h.state.topic.Some? ==> h.state.topic.value == s.log[h.sequence].topic)
    && (h.state.payload.Some? ==> h.state.payload.value == s.log[h.sequence].payload)
    && Coherent(h.state) && !h.state.phase.Acknowledged? && !h.state.phase.Rejected?
    && (if h.state.everStarted then Covered(s, h.sequence) else NoWire(s, h.sequence))
  }

  ghost predicate Book(s: System, c: Client) { forall id :: id in c.active ==> HandleOk(s, id, c.active[id]) }

  /** Handles stand in the order of admission. */
  ghost predicate Ordered(c: Client) { Ascends(c.active, c.order) }

  ghost predicate Ascends(active: map<string, Handle>, order: seq<string>) {
    && (forall i :: 0 <= i < |order| ==> order[i] in active)
    && (forall i, j :: 0 <= i < j < |order| ==> active[order[i]].sequence < active[order[j]].sequence)
  }

  /** The gate holder has committed the removal of this row but not yet acted on it. */
  predicate Gone(gate: Gate, id: string) {
    || (gate.Acking? && gate.committed && gate.id == id)
    || (gate.Checking? && gate.verdict == Some(Removed) && gate.id == id)
  }

  /** Rows and pending handles correspond, but for the gate holder's unpublished commit. */
  ghost predicate Matched(s: System, c: Client) {
    && (forall id :: id in s.store.rows ==>
          || (id in c.active && c.active[id].sequence == s.store.rows[id].sequence)
          || (c.gate.Admitting? && c.gate.message.id == id && c.gate.stored == Some(s.store.rows[id].sequence)))
    && (forall id :: id in c.active && !Terminal(c.active[id].state.phase) ==>
          (id in s.store.rows && s.store.rows[id].sequence == c.active[id].sequence) || Gone(c.gate, id))
    && (forall id :: id in c.active && Terminal(c.active[id].state.phase) ==> Dead(s, id))
  }

  /** Finished handles: acknowledged ones are gone from the store, "not sent" ones never reached the wire. */
  ghost predicate Finished(s: System, c: Client) {
    forall h :: h in c.finished ==>
      && h.sequence in s.log && Terminal(h.state.phase)
      && (h.state.phase.Acknowledged? || h.state.phase.Rejected? ==> h.sequence in s.acked)
      && (h.state.phase.TerminalNotSent? ==> NoWire(s, h.sequence))
      && !(s.log[h.sequence].id in c.active && c.active[s.log[h.sequence].id].sequence == h.sequence)
      && (c.gate.Admitting? ==> c.gate.stored != Some(h.sequence))
  }

  predicate Unanswered(c: Client, id: string) {
    id in c.active ==>
      !(c.active[id].state.phase.AwaitingAck? && c.active[id].state.generation == Some(c.session.generation))
  }

  predicate Pending(c: Client, id: string) { id in c.active && !Terminal(c.active[id].state.phase) }

  /** No store operation will treat this row as pending again. */
  predicate Dead(s: System, id: string) { id in s.store.rows ==> s.store.rows[id].blocked }

  ghost predicate GateLedger(s: System, c: Client) {
    match c.gate
    case Free => true
    case Admitting(m, _, stored) =>
      && m.id !in c.active && IsId(m.packetId) && (forall id :: id in c.active ==> c.active[id].packetId != m.packetId)
      && (stored.None? ==> m.id !in s.store.rows)
      && (stored.Some? ==>
            && m.id in s.store.rows && s.store.rows[m.id].sequence == stored.value && !s.store.rows[m.id].started
            && stored.value + 1 == s.store.next
            && stored.value in s.log && s.log[stored.value] == m && NoWire(s, stored.value))
    case Joining(id, _, _) => Pending(c, id)
    case Reattaching(id, _, _) => Pending(c, id)
    case Checking(id, purpose, verdict) =>
      && id in c.active
      && (purpose.ForWrite? ==> c.writer.Waiting? && c.writer.id == id)
      && (purpose.LastLook? ==> c.writer.Cleared? && purpose.now >= c.active[id].expires)
      && (verdict == Some(StillPending) ==> Pending(c, id))
      && (verdict.Some? && (!verdict.value.StillPending? || purpose.LastLook?) ==> Dead(s, id))
    case Marking(id, committed) =>
      && Pending(c, id) && c.writer.Waiting? && c.writer.id == id
      && (committed ==> Covered(s, c.active[id].sequence))
    case Acking(id, _, _, committed) =>
      && id in c.active && (committed ==> c.active[id].sequence in s.acked)
      && (c.session.alive ==> !Unanswered(c, id))
  }

  ghost predicate WriterLedger(s: System, c: Client) {
    && (match c.writer
        case Resting => true
        case Waiting(id, k, _, dup) =>
          && id in c.active && c.active[id].sequence == k && (!dup ==> NoWire(s, k))
          && Unanswered(c, id) && !(c.gate.Acking? && c.gate.id == id)
          && (c.session.alive ==> id in c.session.deliveries && id !in c.session.queue)
        case Cleared(id, k, _, dup) =>
          && Covered(s, k) && k in s.log && (!dup ==> NoWire(s, k))
          && (id in c.active && c.active[id].sequence == k ==> c.active[id].state.everStarted))
    && (forall id :: id in c.session.queue ==> Unanswered(c, id) && id in c.session.deliveries)
    && (!c.session.alive ==> c.session.queue == {})
  }

  ghost predicate Ledger(s: System, c: Client) {
    !c.settled && Book(s, c) && Ordered(c) && Matched(s, c) && Finished(s, c) && GateLedger(s, c) && WriterLedger(s, c)
  }

  ghost predicate StoreOk(s: System) { History(s) && Rows(s) }

  // ---------- steps of the client alone ----------

  lemma AssignedLedger(s: System, c: Client, call: Call, id: string, topic: string, payload: seq<int>, expires: int)
    requires Reservations(c) && Ledger(s, c) && FreshCall(call, c.reserved.Keys + c.session.pending)
    requires c.gate.Free? && id !in c.active && id !in s.store.rows
    ensures Ledger(s, Assigned(c, call, id, topic, payload, expires))
  {
    if call.id.Some? {
      FreeIds(c, call.id.value);
    }
  }

  lemma AdmitLedger(s: System, c: Client, config: Config, id: string, topic: string, payload: seq<int>, expires: int,
      now: int)
    requires StoreOk(s) && Reservations(c) && Ledger(s, c) && BookOk(c)
    ensures Ledger(s, Admit(c, config, id, topic, payload, expires, now))
  {
    AllocatedIsFree(c.cursor, c.reserved.Keys + c.session.pending);
    if Admit(c, config, id, topic, payload, expires, now) != c {
      AssignedLedger(s, c, Allocate(c.cursor, c.reserved.Keys + c.session.pending), id, topic, payload, expires);
    }
  }

  lemma DetachedOk(s: System, id: string, h: Handle, generation: nat, reason: string)
    requires HandleOk(s, id, h)
    ensures HandleOk(s, id, h.(state := Detached(h.state, generation, reason)))
  {
  }

  /** `d` differs from `c` in the state of handles only, and in no way that the records notice. */
  ghost predicate Rewritten(s: System, c: Client, d: Client) {
    && d.active.Keys == c.active.Keys && d.order == c.order && d.finished == c.finished
    && (forall id :: id in c.active ==>
          && HandleOk(s, id, d.active[id])
          && d.active[id].sequence == c.active[id].sequence && d.active[id].packetId == c.active[id].packetId
          && d.active[id].expires == c.active[id].expires
          && Terminal(d.active[id].state.phase) == Terminal(c.active[id].state.phase))
  }

  lemma RewrittenBook(s: System, c: Client, d: Client)
    requires Rewritten(s, c, d) && Ordered(c) && Matched(s, c) && Finished(s, c)
    requires d.gate == c.gate || ((c.gate.Joining? || c.gate.Reattaching? || c.gate.Marking?) && !d.gate.Admitting?)
             || (c.gate.Checking? && c.gate.verdict == Some(StillPending) && !d.gate.Admitting?)
    ensures Book(s, d) && Ordered(d) && Matched(s, d) && Finished(s, d)
  {
    forall id | id in d.active ensures id in c.active {
    }
    forall id | id in s.store.rows
      ensures (id in d.active && d.active[id].sequence == s.store.rows[id].sequence)
           || (d.gate.Admitting? && d.gate.message.id == id && d.gate.stored == Some(s.store.rows[id].sequence))
    {
    }
  }

  lemma DetachRewrites(s: System, c: Client, d: Client)
    requires Book(s, c) && d.active == DetachAll(c.active, c.session.deliveries, c.session.generation)
    requires d.order == c.order && d.finished == c.finished && d.session.generation == c.session.generation
    ensures Rewritten(s, c, d)
    ensures forall id :: id in c.active ==>
      d.active[id].state.everStarted == c.active[id].state.everStarted && (Unanswered(c, id) ==> Unanswered(d, id))
  {
    assert d.active.Keys == c.active.Keys;
    forall id | id in c.active
      ensures HandleOk(s, id, d.active[id])
      ensures d.active[id] == c.active[id]
          || d.active[id] == c.active[id].(state :=
            Detached(c.active[id].state, c.session.generation, "connection ended"))
    {
      assert HandleOk(s, id, c.active[id]);
      DetachedOk(s, id, c.active[id], c.session.generation, "connection ended");
    }
  }

  lemma AbortRewrites(s: System, c: Client)
    requires Book(s, c)
    ensures Rewritten(s, c, Aborted(c))
    ensures forall id :: id in c.active ==>
      && Aborted(c).active[id].state.everStarted == c.active[id].state.everStarted
      && (Unanswered(c, id) ==> Unanswered(Aborted(c), id))
  {
    if c.session.alive {
      DetachRewrites(s, c, Aborted(c));
    }
  }

  lemma AbortWriter(s: System, c: Client, d: Client)
    requires Book(s, c) && GateLedger(s, c) && WriterLedger(s, c) && d == Aborted(c)
    ensures GateLedger(s, d) && WriterLedger(s, d)
  {
    AbortRewrites(s, c);
  }

  /** One handle gets a new state. */
  lemma OneRewritten(s: System, c: Client, d: Client, id: string, h: Handle)
    requires Book(s, c) && Pending(c, id) && HandleOk(s, id, h) && !Terminal(h.state.phase)
    requires h.sequence == c.active[id].sequence && h.packetId == c.active[id].packetId
        && h.expires == c.active[id].expires
    requires d.active == c.active[id := h] && d.order == c.order && d.finished == c.finished
    ensures Rewritten(s, c, d)
  {
  }

  lemma SameRecords(s: System, c: Client, d: Client)
    requires Book(s, c) && Ordered(c) && Matched(s, c) && Finished(s, c)
    requires d.active == c.active && d.order == c.order && d.finished == c.finished && d.gate == c.gate
    ensures Book(s, d) && Ordered(d) && Matched(s, d) && Finished(s, d)
  {
  }

  /** Teardown only detaches. */
  lemma AbortLedger(s: System, c: Client)
    requires Ledger(s, c)
    ensures Ledger(s, Aborted(c)) && Ledger(s, Stopped(c))
  {
    var d := Aborted(c);
    AbortRewrites(s, c);
    RewrittenBook(s, c, d);
    AbortWriter(s, c, d);
    SameLedger(s, d, Stopped(c));
  }

  /** Flags of the supervisor do not matter to the records. */
  lemma SameLedger(s: System, c: Client, d: Client)
    requires Ledger(s, c)
    requires !d.settled && d.active == c.active && d.order == c.order && d.gate == c.gate && d.writer == c.writer
        && d.finished == c.finished
    requires d.session.generation == c.session.generation && d.session.alive == c.session.alive
    requires d.session.queue == c.session.queue && d.session.deliveries == c.session.deliveries
    ensures Ledger(s, d)
  {
  }

  lemma RefuseLedger(s: System, c: Client)
    requires Ledger(s, c)
    ensures Ledger(s, Refuse(c))
  {
    if Uncommitted(c.gate) {
      assert Ledger(s, Withdrawn(c));
      AbortLedger(s, Withdrawn(c));
    }
  }

  lemma NewIsUncovered(s: System, c: Client, m: Message, g: nat, k: nat)
    requires StoreOk(s) && GateLedger(s, c) && c.gate == Admitting(m, g, Some(k))
    ensures !Covered(s, k)
  {
    forall id | id in s.store.rows && s.store.rows[id].sequence == k ensures id == m.id {
      assert s.log[k].id == id;
    }
  }

  /** What publication makes of the client. */
  ghost predicate Publication(c: Client, d: Client, m: Message, g: nat, k: nat, h: Handle) {
    && c.gate == Admitting(m, g, Some(k))
    && d.active == c.active[m.id := h] && d.order == c.order + [m.id]
    && d.writer == c.writer && d.finished == c.finished && d.settled == c.settled
    && d.session == c.session.(slots := d.session.slots)
    && (d.gate.Free? || d.gate == Joining(m.id, g, false))
    && h.sequence == k && h.packetId == m.packetId && h.expires == m.expires
    && h.state.topic == Some(m.topic) && h.state.payload == Some(m.payload) && !h.state.everStarted
    && (h.state.phase.Queued? || h.state.phase.AwaitingReconnect?) && h.state.generation.None?
  }

  lemma InsertedIs(c: Client, m: Message, g: nat, k: nat, h: Handle, gate: Gate, session: Session)
    requires c.gate == Admitting(m, g, Some(k)) && session == c.session.(slots := session.slots)
    requires gate.Free? || gate == Joining(m.id, g, false)
    requires h == Admitted(m, k) || h == Parked(Admitted(m, k))
    ensures var d := Inserted(c, m.id, h, gate, session); m.id in d.active && Publication(c, d, m, g, k, d.active[m.id])
  {
  }

  lemma PublishedIs(c: Client, m: Message, g: nat, k: nat)
    requires c.gate == Admitting(m, g, Some(k))
    ensures var d := Published(c, m, g, k); m.id in d.active && Publication(c, d, m, g, k, d.active[m.id])
  {
    InsertedIs(c, m, g, k, Admitted(m, k), Joining(m.id, g, false), c.session);
    InsertedIs(c, m, g, k, Parked(Admitted(m, k)), Free, SlotBack(c.session, g));
  }

  lemma OldSequences(s: System, c: Client, k: nat)
    requires History(s) && Book(s, c) && k + 1 == s.store.next && k in s.log && s.log[k].id !in c.active
    ensures forall x :: x in c.active ==> c.active[x].sequence < k
  {
    forall x | x in c.active ensures c.active[x].sequence < k {
      assert HandleOk(s, x, c.active[x]);
    }
  }

  lemma PublicationOrder(c: Client, d: Client, m: Message, g: nat, k: nat, h: Handle)
    requires Ordered(c) && Publication(c, d, m, g, k, h) && m.id !in c.active
    requires forall x :: x in c.active ==> c.active[x].sequence < k
    ensures Ordered(d)
  {
  }

  lemma PublicationBook(s: System, c: Client, d: Client, m: Message, g: nat, k: nat, h: Handle)
    requires Book(s, c) && Publication(c, d, m, g, k, h) && k in s.log && s.log[k] == m && NoWire(s, k)
    ensures Book(s, d)
  {
    assert HandleOk(s, m.id, h);
  }

  lemma PublicationMatched(s: System, c: Client, d: Client, m: Message, g: nat, k: nat, h: Handle)
    requires Matched(s, c) && Finished(s, c) && Publication(c, d, m, g, k, h)
    requires m.id in s.store.rows && s.store.rows[m.id].sequence == k && k in s.log && s.log[k].id == m.id
    ensures Matched(s, d) && Finished(s, d)
  {
  }

  lemma PublicationWriter(s: System, c: Client, d: Client, m: Message, g: nat, k: nat, h: Handle)
    requires WriterLedger(s, c) && Publication(c, d, m, g, k, h) && !Covered(s, k) && m.id !in c.active
    ensures WriterLedger(s, d)
  {
  }

  lemma PublishedLedger(s: System, c: Client, m: Message, g: nat, k: nat)
    requires StoreOk(s) && Ledger(s, c) && c.gate == Admitting(m, g, Some(k))
    ensures Ledger(s, Published(c, m, g, k))
  {
    PublishedIs(c, m, g, k);
    var d := Published(c, m, g, k);
    var h := d.active[m.id];
    NewIsUncovered(s, c, m, g, k);
    OldSequences(s, c, k);
    PublicationOrder(c, d, m, g, k, h);
    PublicationBook(s, c, d, m, g, k, h);
    PublicationMatched(s, c, d, m, g, k, h);
    PublicationWriter(s, c, d, m, g, k, h);
  }

  lemma AttachWriter(s: System, c: Client, id: string, g: nat, slots: nat)
    requires Pending(c, id) && WriterLedger(s, c) && !c.gate.Acking?
    requires g == c.session.generation ==> id !in c.session.deliveries
    ensures WriterLedger(s, AttachTo(c, id, g, slots))
  {
    AttachShape(c, id, g, slots);
    AttachUnanswered(c, id, g, slots);
  }

  /** Attaching frees the gate, and only on the generation it began on does it take a slot and queue the write. */
  lemma AttachShape(c: Client, id: string, g: nat, slots: nat)
    requires id in c.active
    ensures var d := AttachTo(c, id, g, slots);
            && d.gate.Free? && d.writer == c.writer && d.settled == c.settled
            && (d.session == c.session || (g == c.session.generation
                  && d.session == c.session.(slots := slots, deliveries := c.session.deliveries + {id},
                      queue := c.session.queue + {id})))
  {
  }

  /** An attached delivery has not been written yet, and no other handle changes. */
  lemma AttachUnanswered(c: Client, id: string, g: nat, slots: nat)
    requires Pending(c, id)
    ensures var d := AttachTo(c, id, g, slots);
            && (forall x :: x in d.active <==> x in c.active)
            && (forall x :: x in c.active && x != id ==> d.active[x] == c.active[x])
            && d.active[id] == c.active[id].(state := d.active[id].state)
            && d.active[id].state.everStarted == c.active[id].state.everStarted && Unanswered(d, id)
  {
  }

  lemma RewrittenLedger(s: System, c: Client, d: Client)
    requires Rewritten(s, c, d) && Ledger(s, c) && WriterLedger(s, d) && d.gate.Free? && !d.settled
    requires c.gate.Joining? || c.gate.Reattaching? || c.gate.Marking?
             || (c.gate.Checking? && c.gate.verdict == Some(StillPending))
    ensures Ledger(s, d)
  {
    RewrittenBook(s, c, d);
  }

  lemma AttachedOk(s: System, id: string, h: Handle, g: int)
    requires HandleOk(s, id, h) && !Terminal(h.state.phase)
    ensures HandleOk(s, id, h.(state := Attached(h.state, g, 0)))
  {
  }

  lemma AttachRewrites(s: System, c: Client, id: string, g: nat, slots: nat)
    requires Book(s, c) && Pending(c, id)
    ensures Rewritten(s, c, AttachTo(c, id, g, slots))
  {
    var d := AttachTo(c, id, g, slots);
    var h := c.active[id].(state := Attached(c.active[id].state, g, 0));
    assert HandleOk(s, id, c.active[id]);
    AttachedOk(s, id, c.active[id], g);
    OneRewritten(s, c, d, id, h);
  }

  lemma AttachLedger(s: System, c: Client, id: string, g: nat, slots: nat)
    requires Ledger(s, c) && (c.gate == Joining(id, g, true) || c.gate == Reattaching(id, g, true))
    requires g == c.session.generation ==> id !in c.session.deliveries
    ensures Ledger(s, AttachTo(c, id, g, slots))
  {
    AttachWriter(s, c, id, g, slots);
    AttachRewrites(s, c, id, g, slots);
    AttachShape(c, id, g, slots);
    RewrittenLedger(s, c, AttachTo(c, id, g, slots));
  }

  lemma StartedLedger(s: System, c: Client, id: string)
    requires Ledger(s, c) && id in c.active && c.writer.Waiting? && c.writer.id == id
    requires c.gate.Marking? || (c.gate.Checking? && c.gate.verdict == Some(StillPending))
    requires c.gate.id == id && Covered(s, c.active[id].sequence)
    ensures Ledger(s, MarkedStarted(c, id))
  {
    StartedRewrites(s, c, id);
    StartedWriter(s, c, id);
    RewrittenLedger(s, c, MarkedStarted(c, id));
  }

  lemma StartedRewrites(s: System, c: Client, id: string)
    requires Book(s, c) && Pending(c, id) && Covered(s, c.active[id].sequence)
    ensures Rewritten(s, c, MarkedStarted(c, id))
  {
    var h := c.active[id];
    assert HandleOk(s, id, h);
    StartedOk(s, id, h);
    OneRewritten(s, c, MarkedStarted(c, id), id, h.(state := Started(h.state)));
  }

  lemma StartedOk(s: System, id: string, h: Handle)
    requires HandleOk(s, id, h) && !Terminal(h.state.phase) && Covered(s, h.sequence)
    ensures HandleOk(s, id, h.(state := Started(h.state))) && !Terminal(Started(h.state).phase)
  {
  }

  lemma StartedWriter(s: System, c: Client, id: string)
    requires WriterLedger(s, c) && id in c.active && c.writer.Waiting? && c.writer.id == id
    requires Covered(s, c.active[id].sequence) && c.active[id].sequence in s.log
    ensures WriterLedger(s, MarkedStarted(c, id))
  {
  }

  lemma TerminatedOk(s: System, id: string, h: Handle)
    requires HandleOk(s, id, h)
    ensures HandleOk(s, id, h.(state := FinishedTerminal(h.state, "durable delivery expired", DeliveryRejected)))
  {
  }

  /** A quarantined or removed row's handle may become terminal. */
  lemma TerminatedParts(s: System, c: Client, d: Client, id: string, h: Handle)
    requires Book(s, c) && Ordered(c) && Matched(s, c) && Finished(s, c) && id in c.active && Dead(s, id)
    requires c.gate.Checking? && c.gate.id == id && HandleOk(s, id, h) && Terminal(h.state.phase)
        && h.sequence == c.active[id].sequence
    requires d.active == c.active[id := h] && d.order == c.order && d.finished == c.finished && d.gate.Free?
    ensures Book(s, d) && Ordered(d) && Matched(s, d) && Finished(s, d)
  {
  }

  lemma TerminatedBook(s: System, c: Client, id: string, writer: Writer)
    requires Book(s, c) && Ordered(c) && Matched(s, c) && Finished(s, c) && id in c.active && Dead(s, id)
    requires c.gate.Checking? && c.gate.id == id
    ensures var d := Terminated(c, id, writer); Book(s, d) && Ordered(d) && Matched(s, d) && Finished(s, d)
  {
    assert HandleOk(s, id, c.active[id]);
    TerminatedOk(s, id, c.active[id]);
    TerminatedParts(s, c, Terminated(c, id, writer), id, Terminated(c, id, writer).active[id]);
  }

  lemma TerminatedWriter(s: System, c: Client, id: string, writer: Writer)
    requires WriterLedger(s, c) && id in c.active && (writer == c.writer || writer == Resting)
    ensures WriterLedger(s, Terminated(c, id, writer))
  {
  }

  lemma EndedLedger(s: System, c: Client, id: string, purpose: Purpose, verdict: Expiry)
    requires Ledger(s, c) && c.gate == Checking(id, purpose, Some(verdict))
        && (!verdict.StillPending? || purpose.LastLook?)
    ensures Ledger(s, Ended(c, id, purpose))
  {
    var writer := if purpose.ForWrite? || purpose.LastLook? then Resting else c.writer;
    TerminatedBook(s, c, id, writer);
    TerminatedWriter(s, c, id, writer);
    AbortLedger(s, Terminated(c, id, writer));
  }

  lemma CheckedLedger(s: System, c: Client, id: string, purpose: Purpose, verdict: Expiry)
    requires Ledger(s, c) && c.gate == Checking(id, purpose, Some(verdict))
    ensures Ledger(s, Checked(c, id, purpose, verdict))
  {
    if !verdict.StillPending? || purpose.LastLook? {
      EndedLedger(s, c, id, purpose, verdict);
    } else if purpose.ForWrite? && c.active[id].state.everStarted {
      assert HandleOk(s, id, c.active[id]);
      StartedLedger(s, c, id);
    } else {
      PassedOn(s, c, id, purpose);
    }
  }

  /** A delivery that has not expired: the gate goes on, the records stay. */
  lemma PassedOn(s: System, c: Client, id: string, purpose: Purpose)
    requires Ledger(s, c) && c.gate == Checking(id, purpose, Some(StillPending)) && !purpose.LastLook?
    requires purpose.ForWrite? ==> !c.active[id].state.everStarted
    ensures Ledger(s, Checked(c, id, purpose, StillPending))
  {
    var d := Checked(c, id, purpose, StillPending);
    assert d == c.(gate := d.gate) && (d.gate.Free? || d.gate.Reattaching? || d.gate.Marking?);
    GatePassed(s, c, d.gate);
  }

  lemma GatePassed(s: System, c: Client, gate: Gate)
    requires Ledger(s, c) && c.gate.Checking? && c.gate.verdict == Some(StillPending)
    requires gate.Free? || gate.Reattaching? || gate.Marking?
    requires GateLedger(s, c.(gate := gate))
    ensures Ledger(s, c.(gate := gate))
  {
    var d := c.(gate := gate);
    assert forall id :: id in c.active ==> HandleOk(s, id, c.active[id]);
    RewrittenBook(s, c, d);
    assert forall id :: Unanswered(c, id) ==> Unanswered(d, id);
  }

  /** What is left of an ascending order still ascends. */
  lemma {:induction false} WithoutAscends(active: map<string, Handle>, order: seq<string>, id: string)
    requires Ascends(active, order)
    ensures Ascends(active, DurableMachine.Without(order, id))
    ensures forall x :: x in DurableMachine.Without(order, id) ==> x in order
  {
    if order != [] {
      var tail := order[1..];
      assert forall i :: 0 <= i < |tail| ==> tail[i] == order[i + 1];
      assert forall x :: x in tail ==> x in order;
      if order[0] != id {
        WithoutAscends(active, tail, id);
        var rest := DurableMachine.Without(tail, id);
        forall x | x in rest ensures active[order[0]].sequence < active[x].sequence {
          var j :| 0 <= j < |tail| && tail[j] == x;
          assert order[j + 1] == x;
        }
        ConsAscends(active, order[0], rest);
      }
    }
  }

  lemma ConsAscends(active: map<string, Handle>, first: string, rest: seq<string>)
    requires Ascends(active, rest) && first in active
    requires forall x :: x in rest ==> x in active && active[first].sequence < active[x].sequence
    ensures Ascends(active, [first] + rest)
  {
    var all := [first] + rest;
    assert forall i :: 1 <= i < |all| ==> all[i] == rest[i - 1] && all[i] in rest;
  }

  lemma {:induction false} ReleasedOrder(c: Client, id: string)
    requires Ordered(c) && NoRepeats(c.order) && id in c.active
    ensures Ordered(c.(active := c.active - {id}, order := DurableMachine.Without(c.order, id)))
  {
    WithoutOk(c.order, id);
    WithoutAscends(c.active, c.order, id);
    var rest := DurableMachine.Without(c.order, id);
    forall i | 0 <= i < |rest| ensures rest[i] != id {
      assert rest[i] in rest;
    }
  }

  lemma ReleasedBook(s: System, c: Client, id: string, g: nat, code: int)
    requires Book(s, c) && Matched(s, c) && Finished(s, c) && GateLedger(s, c) && c.gate == Acking(id, g, code, true)
    requires StoreOk(s)
    ensures var d := Released(c, id, code); Book(s, d) && Matched(s, d) && Finished(s, d)
  {
    var d := Released(c, id, code);
    var h := c.active[id];
    assert HandleOk(s, id, h);
    forall x | x in d.finished
      ensures x.sequence in s.log && Terminal(x.state.phase)
      ensures x.state.phase.Acknowledged? || x.state.phase.Rejected? ==> x.sequence in s.acked
      ensures x.state.phase.TerminalNotSent? ==> NoWire(s, x.sequence)
      ensures !(s.log[x.sequence].id in d.active && d.active[s.log[x.sequence].id].sequence == x.sequence)
    {
      if x !in c.finished {
        assert x.sequence == h.sequence;
      }
    }
  }

  lemma ReleasedLedger(s: System, c: Client, id: string, g: nat, code: int)
    requires StoreOk(s) && Ledger(s, c) && NoRepeats(c.order) && c.gate == Acking(id, g, code, true)
    ensures Ledger(s, Released(c, id, code))
  {
    ReleasedOrder(c, id);
    ReleasedBook(s, c, id, g, code);
    assert WriterLedger(s, Released(c, id, code));
  }

  lemma ItemWriter(s: System, c: Client, id: string)
    requires Book(s, c) && GateLedger(s, c) && WriterLedger(s, c)
    ensures WriterLedger(s, TakeItem(c, id))
  {
    if Owns(c, id) {
      assert HandleOk(s, id, c.active[id]);
    }
  }

  lemma ItemLedger(s: System, c: Client, id: string)
    requires Ledger(s, c)
    ensures Ledger(s, TakeItem(c, id))
  {
    ItemIs(c, id);
    ItemWriter(s, c, id);
    ItemGate(s, c, id);
    SameRecords(s, c, TakeItem(c, id));
  }

  lemma ItemIs(c: Client, id: string)
    ensures var d := TakeItem(c, id);
            d == c.(writer := d.writer, session := c.session.(queue := d.session.queue))
  {
  }

  lemma ItemGate(s: System, c: Client, id: string)
    requires GateLedger(s, c) && WriterLedger(s, c)
    ensures GateLedger(s, TakeItem(c, id))
  {
  }

  lemma EnterLedger(s: System, c: Client)
    requires Ledger(s, c)
    ensures Ledger(s, EnterWrite(c))
  {
    if EnterWrite(c) != c {
      GateTaken(s, c, Checking(c.writer.id, ForWrite, None));
    }
  }

  lemma CancelLedger(s: System, c: Client)
    requires Ledger(s, c)
    ensures Ledger(s, CancelWrite(c))
  {
    SameRecords(s, c, CancelWrite(c));
  }

  lemma GateTaken(s: System, c: Client, gate: Gate)
    requires Ledger(s, c) && c.gate.Free? && !gate.Admitting?
    requires !gate.Acking? || !gate.committed
    requires !gate.Checking? || gate.verdict.None?
    requires GateLedger(s, c.(gate := gate)) && (gate.Acking? ==> !(c.writer.Waiting? && c.writer.id == gate.id))
    ensures Ledger(s, c.(gate := gate))
  {
  }

  lemma PubackLedger(s: System, c: Client, id: string, code: int, now: int)
    requires Ledger(s, c)
    ensures Ledger(s, TakePuback(c, id, code)) && Ledger(s, Watch(c, id, now))
  {
    if TakePuback(c, id, code) != c {
      GateTaken(s, c, Acking(id, c.session.generation, code, false));
    }
    if Watch(c, id, now) != c {
      GateTaken(s, c, Checking(id, ForWatch, None));
    }
  }

  lemma ConnectLedger(s: System, c: Client)
    requires Ledger(s, c)
    ensures Ledger(s, Connect(c))
  {
  }

  lemma ReplayLedger(s: System, c: Client)
    requires Ledger(s, c)
    ensures Ledger(s, ReplayNext(c))
  {
    var d := ReplayNext(c);
    ReplayIs(c);
    if d != c {
      SameLedger(s, c, d.(gate := Free));
      if !d.gate.Free? {
        GateTaken(s, d.(gate := Free), d.gate);
      }
    }
  }

  /** Shutdown: what was possibly written ends "unknown", the rest "not sent". */
  lemma SettleFinishes(s: System, c: Client)
    requires Book(s, c) && Finished(s, c)
    ensures Finished(s, Settle(c))
  {
    forall id | id in c.active
      ensures HandleOk(s, id, c.active[id])
    {
    }
  }
}
