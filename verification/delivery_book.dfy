/**
 The book of active deliveries (`DeliveryBook` in `delivery.mbt`) and in-memory
 admission (`submit_delivery` in `client.mbt`). Three collections must agree:
 `active` by delivery id, `reserved` by packet id, and `order` of admission.
 */
module DeliveryBooks {
  import opened Optional
  import opened DeliveryRecords
  import opened PacketIds

  datatype SubmitResult = Submitted(handle: DeliveryRecord) | Refused(error: ClientError)

  /** Removes the first record with this delivery id. */
  function Without(order: seq<DeliveryRecord>, id: string): seq<DeliveryRecord> {
    if order == [] then []
    else if order[0].deliveryId == id then order[1..]
    else [order[0]] + Without(order[1..], id)
  }

  lemma {:induction false} WithoutAt(order: seq<DeliveryRecord>, k: nat)
    requires k < |order|
    requires forall i :: 0 <= i < k ==> order[i].deliveryId != order[k].deliveryId
    ensures Without(order, order[k].deliveryId) == order[..k] + order[k + 1..]
  {
    if k > 0 {
      WithoutAt(order[1..], k - 1);
      assert order[..k] == [order[0]] + order[1..][..k - 1];
    }
  }

  predicate Distinct(order: seq<DeliveryRecord>) {
    forall i, j :: 0 <= i < j < |order| ==>
      order[i].deliveryId != order[j].deliveryId && order[i].packetId != order[j].packetId
  }

  function UnknownAfter(order: seq<DeliveryRecord>): nat
    reads order
  {
    if order == [] then 0
    else UnknownAfter(order[..|order| - 1]) + (if order[|order| - 1].phase.TerminalOutcomeUnknown? then 1 else 0)
  }

  function StartedIn(order: seq<DeliveryRecord>): nat
    reads order
  {
    if order == [] then 0
    else StartedIn(order[..|order| - 1])
         + (if !Terminal(order[|order| - 1].phase) && order[|order| - 1].everStarted then 1 else 0)
  }

  /** The three collections hold the same distinct records, each under its own identifiers. */
  predicate Agree(active: map<string, DeliveryRecord>, reserved: map<int, DeliveryRecord>, order: seq<DeliveryRecord>) {
    && Distinct(order)
    && (forall r :: r in order ==> r.deliveryId in active && active[r.deliveryId] == r)
    && (forall r :: r in order ==> r.packetId in reserved && reserved[r.packetId] == r && IsId(r.packetId))
    && (forall id :: id in active ==> active[id] in order && active[id].deliveryId == id)
    && (forall id :: id in reserved ==> reserved[id] in order && reserved[id].packetId == id)
  }

  lemma DropOne(order: seq<DeliveryRecord>, k: nat)
    requires Distinct(order) && k < |order|
    ensures var rest := order[..k] + order[k + 1..];
            && Distinct(rest)
            && (forall r :: r in rest ==>
                  r in order && r.deliveryId != order[k].deliveryId && r.packetId != order[k].packetId)
            && (forall r :: r in order && r != order[k] ==> r in rest)
  {
    var rest := order[..k] + order[k + 1..];
    assert forall i :: 0 <= i < |rest| ==> rest[i] == order[if i < k then i else i + 1];
    forall r | r in order && r != order[k] ensures r in rest {
      var i :| 0 <= i < |order| && order[i] == r;
      assert r == rest[if i < k then i else i - 1];
    }
  }

  /** Without one member the rest still agree, in the same order. */
  lemma {:induction false} RemovalAgrees(
    active: map<string, DeliveryRecord>, reserved: map<int, DeliveryRecord>, order: seq<DeliveryRecord>,
    record: DeliveryRecord)
    requires Agree(active, reserved, order) && record in order
    ensures var rest := Without(order, record.deliveryId);
            && Agree(active - {record.deliveryId}, reserved - {record.packetId}, rest)
            && (forall r :: r in rest <==> r in order && r != record)
  {
    var k :| 0 <= k < |order| && order[k] == record;
    WithoutAt(order, k);
    DropOne(order, k);
    RestAgrees(active, reserved, order, record, order[..k] + order[k + 1..]);
  }

  lemma RestAgrees(
    active: map<string, DeliveryRecord>, reserved: map<int, DeliveryRecord>, order: seq<DeliveryRecord>,
    record: DeliveryRecord, rest: seq<DeliveryRecord>)
    requires Agree(active, reserved, order) && record in order && Distinct(rest)
    requires forall r :: r in rest ==> r in order && r.deliveryId != record.deliveryId && r.packetId != record.packetId
    requires forall r :: r in order && r != record ==> r in rest
    ensures Agree(active - {record.deliveryId}, reserved - {record.packetId}, rest)
  {
  }

  /** A record with unused identifiers can join. */
  lemma AdditionAgrees(
    active: map<string, DeliveryRecord>, reserved: map<int, DeliveryRecord>, order: seq<DeliveryRecord>,
    record: DeliveryRecord)
    requires Agree(active, reserved, order)
    requires record.deliveryId !in active && record.packetId !in reserved && IsId(record.packetId)
    ensures Agree(active[record.deliveryId := record], reserved[record.packetId := record], order + [record])
  {
    assert forall i :: 0 <= i < |order| ==> order[i] in order;
  }

  lemma AddedAndRemoved<K, V>(m: map<K, V>, k: K, v: V)
    requires k !in m
    ensures m[k := v] - {k} == m
  {
  }

  /** Joining and leaving cancel out. */
  lemma {:induction false} JoinLeave(
    active: map<string, DeliveryRecord>, reserved: map<int, DeliveryRecord>, order: seq<DeliveryRecord>,
    record: DeliveryRecord)
    requires (forall r :: r in order ==> r.deliveryId != record.deliveryId)
    requires record.deliveryId !in active && record.packetId !in reserved
    ensures active[record.deliveryId := record] - {record.deliveryId} == active
    ensures reserved[record.packetId := record] - {record.packetId} == reserved
    ensures Without(order + [record], record.deliveryId) == order
  {
    AddedAndRemoved(active, record.deliveryId, record);
    AddedAndRemoved(reserved, record.packetId, record);
    assert forall i :: 0 <= i < |order| ==> order[i] in order;
    WithoutAt(order + [record], |order|);
    assert (order + [record])[..|order|] == order;
  }

  class DeliveryBook {
    var active: map<string, DeliveryRecord>
    var reserved: map<int, DeliveryRecord>
    var order: seq<DeliveryRecord>
    var nextPacketId: int

    predicate Valid()
      reads this, order
    {
      Agree(active, reserved, order) && IsId(nextPacketId) && forall r :: r in order ==> !Terminal(r.phase)
    }

    constructor ()
      ensures Valid() && order == []
    {
      active, reserved, order, nextPacketId := map[], map[], [], 1;
    }

    /** The wrap-around scan. */
    method AllocatePacketId(pending: set<int>) returns (id: Option<int>)
      requires IsId(nextPacketId)
      modifies this`nextPacketId
      ensures var call := Allocate(old(nextPacketId), reserved.Keys + pending);
              id == call.id && nextPacketId == call.cursor
    {
      ghost var start, taken := nextPacketId, reserved.Keys + pending;
      for k := 0 to 65535
        invariant nextPacketId == Ahead(start, k)
        invariant Occupied(start, taken, k)
      {
        var candidate := nextPacketId;
        nextPacketId := if candidate == 65535 then 1 else candidate + 1;
        AheadNext(start, k);
        if candidate !in reserved && candidate !in pending {
          AllocateFinds(start, taken, k);
          return Some(candidate);
        }
        OccupiedMore(start, taken, k);
      }
      AllocateFails(start, taken);
      id := None;
    }

    method RemoveRecord(record: DeliveryRecord)
      modifies this`active, this`reserved, this`order
      ensures active == old(active) - {record.deliveryId}
      ensures reserved == old(reserved) - {record.packetId}
      ensures order == Without(old(order), record.deliveryId)
    {
      active, reserved := active - {record.deliveryId}, reserved - {record.packetId};
      for index := 0 to |order|
        invariant order == old(order)
        invariant forall i :: 0 <= i < index ==> order[i].deliveryId != record.deliveryId
      {
        if order[index].deliveryId == record.deliveryId {
          WithoutAt(order, index);
          order := order[..index] + order[index + 1..];
          return;
        }
      }
      WithoutNone(order, record.deliveryId);
    }

    method Acknowledge(record: DeliveryRecord, reason: Option<int>)
      requires Valid() && record in order
      modifies this`active, this`reserved, this`order, record
      ensures Valid() && order == Without(old(order), record.deliveryId) && record !in order
      ensures active == old(active) - {record.deliveryId} && reserved == old(reserved) - {record.packetId}
      ensures record.View() == FinishedAcknowledged(old(record.View()), reason)
    {
      record.FinishAcknowledged(reason);
      RemoveRecord(record);
      RemovalAgrees(old(active), old(reserved), old(order), record);
    }

    method Reject(record: DeliveryRecord, code: int)
      requires Valid() && record in order
      modifies this`active, this`reserved, this`order, record
      ensures Valid() && order == Without(old(order), record.deliveryId) && record !in order
      ensures active == old(active) - {record.deliveryId} && reserved == old(reserved) - {record.packetId}
      ensures record.View() == FinishedRejected(old(record.View()), code)
    {
      record.FinishRejected(code);
      RemoveRecord(record);
      RemovalAgrees(old(active), old(reserved), old(order), record);
    }

    /** Ends every delivery and empties the book. */
    method FinishAll(reason: string, cause: ClientError)
      requires Distinct(order)
      modifies this`active, this`reserved, this`order, order
      ensures active == map[] && reserved == map[] && order == []
      ensures forall r :: r in old(order) ==> r.View() == FinishedTerminal(old(r.View()), reason, cause)
    {
      var records := order;
      for index := 0 to |records|
        invariant unchanged(this)
        invariant forall i :: 0 <= i < index ==>
          records[i].View() == FinishedTerminal(old(records[i].View()), reason, cause)
        invariant forall i :: index <= i < |records| ==> records[i].View() == old(records[i].View())
      {
        assert forall i :: 0 <= i < |records| && i != index ==> records[i] != records[index];
        records[index].FinishTerminal(reason, cause);
      }
      active, reserved, order := map[], map[], [];
    }

    /**
     Shutdown: raises the counter by exactly the number of records that end as
     "outcome unknown". An already empty book counts nothing.
     */
    method FinishDeliveriesNow(unknownOutcomes: nat, reason: string, cause: ClientError) returns (total: nat)
      requires Valid()
      modifies this`active, this`reserved, this`order, order
      ensures Valid() && order == []
      ensures total == unknownOutcomes + UnknownAfter(old(order))
      ensures forall r :: r in old(order) ==>
                && Terminal(r.phase)
                && (r.phase.TerminalOutcomeUnknown? <==> old(r.everStarted))
                && (r.phase.TerminalNotSent? <==> !old(r.everStarted))
    {
      total := unknownOutcomes;
      if active == map[] {
        SameSize(active, reserved, order);
        return;
      }
      for index := 0 to |order|
        invariant total == unknownOutcomes + StartedIn(order[..index])
      {
        if !Terminal(order[index].phase) && order[index].everStarted {
          total := total + 1;
        }
        assert order[..index + 1][..index] == order[..index];
      }
      assert order[..|order|] == order;
      ghost var records, started := order, StartedIn(order);
      FinishAll(reason, cause);
      CountsMatch(records);
    }

    /** A new record with a free delivery id and a free packet id joins all three collections. */
    method AddRecord(record: DeliveryRecord)
      requires Valid() && !Terminal(record.phase)
      requires record.deliveryId !in active && record.packetId !in reserved && IsId(record.packetId)
      modifies this`active, this`reserved, this`order
      ensures Valid() && order == old(order) + [record]
      ensures active == old(active)[record.deliveryId := record] && reserved == old(reserved)[record.packetId := record]
    {
      AdditionAgrees(active, reserved, order, record);
      active := active[record.deliveryId := record];
      reserved := reserved[record.packetId := record];
      order := order + [record];
    }
  }

  lemma {:induction false} WithoutNone(order: seq<DeliveryRecord>, id: string)
    requires forall i :: 0 <= i < |order| ==> order[i].deliveryId != id
    ensures Without(order, id) == order
  {
    if order != [] {
      WithoutNone(order[1..], id);
    }
  }

  /** Finishing turns exactly the started records into "outcome unknown". */
  twostate lemma {:induction false} CountsMatch(records: seq<DeliveryRecord>)
    requires forall r :: r in records ==>
      !old(Terminal(r.phase)) && (r.phase.TerminalOutcomeUnknown? <==> old(r.everStarted))
    ensures UnknownAfter(records) == old(StartedIn(records))
  {
    if records != [] {
      CountsMatch(records[..|records| - 1]);
    }
  }

  /** The attached connection generation, as far as admission uses it. */
  class Session {
    const generation: int
    const sendCapacity: nat
    var pending: set<int>
    var deliveries: map<int, DeliveryRecord>
    var deliverySlots: nat
    var businessDepth: nat
    var alive: bool

    constructor (generation: int, sendCapacity: nat)
      ensures alive && pending == {} && deliveries == map[] && deliverySlots == 0 && businessDepth == 0
      ensures this.generation == generation && this.sendCapacity == sendCapacity
    {
      this.generation, this.sendCapacity := generation, sendCapacity;
      pending, deliveries, deliverySlots, businessDepth, alive := {}, map[], 0, 0, true;
    }

    method Hold(record: DeliveryRecord)
      requires record.packetId !in deliveries
      modifies this`deliveries, this`deliverySlots
      ensures deliveries == old(deliveries)[record.packetId := record] && deliverySlots == old(deliverySlots) + 1
      ensures old(deliverySlots) == old(|deliveries|) ==> deliverySlots == |deliveries|
    {
      deliveries := deliveries[record.packetId := record];
      deliverySlots := deliverySlots + 1;
    }

    method Release(record: DeliveryRecord)
      requires record.packetId in deliveries && deliverySlots > 0
      modifies this`deliveries, this`deliverySlots
      ensures deliveries == old(deliveries) - {record.packetId} && deliverySlots == old(deliverySlots) - 1
    {
      deliveries := deliveries - {record.packetId};
      deliverySlots := deliverySlots - 1;
    }

    /** Nothing stays pending, attached or queued. */
    method Close()
      modifies this
      ensures !alive && pending == {} && deliveries == map[] && deliverySlots == 0 && businessDepth == 0
    {
      alive, pending, deliveries, deliverySlots, businessDepth := false, {}, map[], 0, 0;
    }

    /** Slots are held by attached records only, and attached records are active. */
    predicate Serves(book: DeliveryBook)
      reads this, book
    {
      && deliverySlots == |deliveries|
      && (forall id :: id in deliveries ==> id in book.reserved && deliveries[id] == book.reserved[id])
      && pending !! book.reserved.Keys
    }
  }

  /**
   In-memory admission. `encodes` says whether the packet fits the wire limit and
   `queueOpen` whether the send queue still takes items. A refusal restores book,
   session map, slots and queue depth; only the packet-id cursor may have moved.
   */
  method SubmitDelivery(
    book: DeliveryBook, session: Session, maxInflight: nat, deliveryId: string, topic: string, payload: seq<int>,
    encodes: bool, queueOpen: bool, deadline: int) returns (result: SubmitResult)
    requires book.Valid() && session.Serves(book)
    modifies book, session
    ensures book.Valid() && session.Serves(book)
    ensures session.pending == old(session.pending)
    ensures result.Refused? ==> Restored(book, session)
    ensures result.Submitted? ==> fresh(result.handle) && Joined(book, session, result.handle)
    ensures result.Submitted? ==>
      && result.handle.deliveryId == deliveryId
      && result.handle.packetId !in old(book.reserved) && result.handle.packetId !in session.pending
      && result.handle.View() == Attached(Fresh(topic, payload), session.generation, deadline)
      && |session.pending| + session.deliverySlots <= maxInflight
    ensures result.Submitted? <==>
      && deliveryId !in old(book.active) && |old(book.active)| + |session.pending| < maxInflight
      && Allocate(old(book.nextPacketId), old(book.reserved.Keys) + session.pending).id.Some?
      && encodes && queueOpen && old(session.businessDepth) < session.sendCapacity
    ensures result.Refused? ==>
      var call := Allocate(old(book.nextPacketId), old(book.reserved.Keys) + session.pending);
      result.error == if deliveryId in old(book.active) then DeliveryRejected
                      else if |old(book.active)| + |session.pending| < maxInflight && call.id.Some? && !encodes
                      then Failure("packet exceeds limit") else Backpressure
    ensures book.nextPacketId ==
      if deliveryId in old(book.active) || |old(book.active)| + |session.pending| >= maxInflight
      then old(book.nextPacketId)
      else Allocate(old(book.nextPacketId), old(book.reserved.Keys) + session.pending).cursor
  {
    if deliveryId in book.active { return Refused(DeliveryRejected); }
    if |book.active| + |session.pending| >= maxInflight { return Refused(Backpressure); }
    AllocatedIsFree(book.nextPacketId, book.reserved.Keys + session.pending);
    var issued := book.AllocatePacketId(session.pending);
    if issued.None? { return Refused(Backpressure); }
    if !encodes { return Refused(Failure("packet exceeds limit")); }
    SlotsWithinBook(book, session);
    var record := new DeliveryRecord(deliveryId, issued.value, topic, payload);
    var accepted := AttachAndEnqueue(book, session, record, queueOpen, deadline);
    result := if accepted then Submitted(record) else Refused(Backpressure);
  }

  twostate predicate Restored(book: DeliveryBook, session: Session)
    reads book, session
  {
    && book.active == old(book.active) && book.reserved == old(book.reserved) && book.order == old(book.order)
    && session.deliveries == old(session.deliveries) && session.deliverySlots == old(session.deliverySlots)
    && session.businessDepth == old(session.businessDepth)
  }

  twostate predicate Joined(book: DeliveryBook, session: Session, new record: DeliveryRecord)
    reads book, session
  {
    && book.active == old(book.active)[record.deliveryId := record]
    && book.reserved == old(book.reserved)[record.packetId := record]
    && book.order == old(book.order) + [record]
    && session.deliveries == old(session.deliveries)[record.packetId := record]
    && session.deliverySlots == old(session.deliverySlots) + 1
    && session.businessDepth == old(session.businessDepth) + 1
  }

  /** The second half of admission: take ownership, then undo it if the send queue is full. */
  method AttachAndEnqueue(book: DeliveryBook, session: Session, record: DeliveryRecord, queueOpen: bool, deadline: int)
    returns (accepted: bool)
    requires book.Valid() && session.Serves(book) && !Terminal(record.phase) && record !in book.order
    requires record.deliveryId !in book.active && record.packetId !in book.reserved
        && record.packetId !in session.pending
    requires IsId(record.packetId)
    modifies book`active, book`reserved, book`order, session, record
    ensures book.Valid() && session.Serves(book) && session.pending == old(session.pending)
    ensures accepted == (queueOpen && old(session.businessDepth) < session.sendCapacity)
    ensures accepted ==> Joined(book, session, record)
    ensures accepted ==> record.View() == Attached(old(record.View()), session.generation, deadline)
    ensures !accepted ==> Restored(book, session)
  {
    ghost var a, r, o, d := book.active, book.reserved, book.order, session.deliveries;
    Take(book, session, record, deadline);
    accepted := queueOpen && session.businessDepth < session.sendCapacity;
    if accepted {
      session.businessDepth := session.businessDepth + 1;
    } else {
      Undo(book, session, record, a, r, o, d);
    }
  }

  /** Ownership: the record joins the book and takes a slot of the session. */
  method Take(book: DeliveryBook, session: Session, record: DeliveryRecord, deadline: int)
    requires book.Valid() && session.Serves(book) && !Terminal(record.phase) && record !in book.order
        && IsId(record.packetId)
    requires record.deliveryId !in book.active && record.packetId !in book.reserved
        && record.packetId !in session.pending
    modifies book`active, book`reserved, book`order, session`deliveries, session`deliverySlots, record
    ensures book.Valid() && session.Serves(book)
    ensures book.active == old(book.active)[record.deliveryId := record]
        && book.reserved == old(book.reserved)[record.packetId := record]
    ensures book.order == old(book.order) + [record]
    ensures session.deliveries == old(session.deliveries)[record.packetId := record]
        && session.deliverySlots == old(session.deliverySlots) + 1
    ensures record.View() == Attached(old(record.View()), session.generation, deadline)
  {
    book.AddRecord(record);
    record.Attach(session.generation, deadline);
    session.Hold(record);
  }

  /** The undo of a full queue: session map and slot, record, then book. */
  method Withdraw(book: DeliveryBook, session: Session, record: DeliveryRecord)
    requires record.packetId in session.deliveries && session.deliverySlots > 0
    modifies book`active, book`reserved, book`order, session`deliveries, session`deliverySlots, record
    ensures book.active == old(book.active) - {record.deliveryId}
        && book.reserved == old(book.reserved) - {record.packetId}
    ensures book.order == Without(old(book.order), record.deliveryId)
    ensures session.deliveries == old(session.deliveries) - {record.packetId}
        && session.deliverySlots == old(session.deliverySlots) - 1
    ensures record.View() == RolledBack(old(record.View()))
  {
    session.Release(record);
    record.RollbackInitialAttach();
    book.RemoveRecord(record);
  }

  /** The undo of a full queue restores what joining found. */
  method Undo(
    book: DeliveryBook, session: Session, record: DeliveryRecord, ghost active: map<string, DeliveryRecord>,
    ghost reserved: map<int, DeliveryRecord>, ghost order: seq<DeliveryRecord>,
    ghost deliveries: map<int, DeliveryRecord>)
    requires Agree(active, reserved, order) && record.deliveryId !in active && record.packetId !in reserved
    requires book.active == active[record.deliveryId := record] && book.reserved == reserved[record.packetId := record]
    requires book.order == order + [record]
    requires record.packetId !in deliveries && session.deliveries == deliveries[record.packetId := record]
    requires session.deliverySlots > 0
    modifies book`active, book`reserved, book`order, session`deliveries, session`deliverySlots, record
    ensures book.active == active && book.reserved == reserved && book.order == order
    ensures session.deliveries == deliveries && session.deliverySlots == old(session.deliverySlots) - 1
    ensures record.View() == RolledBack(old(record.View()))
  {
    Withdraw(book, session, record);
    JoinLeave(active, reserved, order, record);
    AddedAndRemoved(deliveries, record.packetId, record);
  }

  /** The record is attached: the session's entry under its packet id is this record. */
  predicate Attends(deliveries: map<int, DeliveryRecord>, record: DeliveryRecord) {
    record.packetId in deliveries && deliveries[record.packetId] == record
  }

  /** Exactly the attached records of a generation have been detached. */
  twostate predicate Loosened(
    order: seq<DeliveryRecord>, deliveries: map<int, DeliveryRecord>, generation: int, reason: string)
    reads order
  {
    forall r :: r in order ==>
      r.View() == if Attends(deliveries, r) then Detached(old(r.View()), generation, reason) else old(r.View())
  }

  /** What a session serves are records of the book, each under its own packet id. */
  lemma ServedRecords(book: DeliveryBook, session: Session)
    requires Agree(book.active, book.reserved, book.order) && session.Serves(book)
    ensures forall id :: id in session.deliveries ==>
      session.deliveries[id] in book.order && session.deliveries[id].packetId == id
  {
    forall id | id in session.deliveries
      ensures session.deliveries[id] in book.order && session.deliveries[id].packetId == id
    {
      assert id in book.reserved;
    }
  }

  /**
   The end of a generation (`abort_with`): every attached record is detached, the book is
   left as it is, and the session holds nothing any more.
   */
  method AbortWith(book: DeliveryBook, session: Session, reason: string)
    requires book.Valid() && session.Serves(book)
    modifies session, book.order
    ensures book.Valid() && session.Serves(book) && !session.alive
    ensures old(session.alive) ==> session.pending == {} && session.deliveries == map[] && session.deliverySlots == 0
    ensures var deliveries := if old(session.alive) then old(session.deliveries) else map[];
            Loosened(book.order, deliveries, session.generation, reason)
  {
    if !session.alive { return; }
    ServedRecords(book, session);
    DetachAll(session.deliveries, book.order, session.generation, reason);
    session.Close();
  }

  /** Teardown of the attached records; a pending record stays pending. */
  method DetachAll(
    deliveries: map<int, DeliveryRecord>, ghost order: seq<DeliveryRecord>, generation: int, reason: string)
    requires forall id :: id in deliveries ==> deliveries[id] in order && deliveries[id].packetId == id
    modifies order
    ensures Loosened(order, deliveries, generation, reason)
    ensures forall r :: r in order && !old(Terminal(r.phase)) ==> !Terminal(r.phase)
  {
    DetachEach(deliveries, order, generation, reason);
    forall r | r in order && !old(Terminal(r.phase)) ensures !Terminal(r.phase) {
      assert !Terminal(r.View().phase);
    }
  }

  /** The loop over attached records. */
  method DetachEach(
    deliveries: map<int, DeliveryRecord>, ghost order: seq<DeliveryRecord>, generation: int, reason: string)
    requires forall id :: id in deliveries ==> deliveries[id] in order && deliveries[id].packetId == id
    modifies order
    ensures Loosened(order, deliveries, generation, reason)
  {
    var todo := deliveries.Keys;
    while todo != {}
      invariant todo <= deliveries.Keys
      invariant forall r :: r in order ==>
        r.View() == if Attends(deliveries, r) && r.packetId !in todo
                    then Detached(old(r.View()), generation, reason) else old(r.View())
      decreases |todo|
    {
      assert (forall id :: id !in todo) ==> todo == {};
      var id :| id in todo;
      deliveries[id].Detach(generation, reason);
      todo := todo - {id};
    }
  }

  /** The records by packet id. */
  function ByPacketId(order: seq<DeliveryRecord>): map<int, DeliveryRecord> {
    if order == [] then map[]
    else
      var last := order[|order| - 1];
      ByPacketId(order[..|order| - 1])[last.packetId := last]
  }

  /** The map holds exactly these records, each under its own packet id. */
  ghost predicate Indexes(m: map<int, DeliveryRecord>, order: seq<DeliveryRecord>) {
    && |m| == |order| && (forall r :: r in order ==> Attends(m, r))
    && (forall id :: id in m ==> m[id] in order && m[id].packetId == id)
  }

  lemma {:induction false} ByPacketIdHolds(order: seq<DeliveryRecord>)
    requires Distinct(order)
    ensures Indexes(ByPacketId(order), order)
  {
    if order != [] {
      var front, last := order[..|order| - 1], order[|order| - 1];
      ByPacketIdHolds(front);
      NewPacketId(front, last);
      IndexGrows(ByPacketId(front), front, last);
      assert order == front + [last];
    }
  }

  lemma NewPacketId(front: seq<DeliveryRecord>, last: DeliveryRecord)
    requires forall i :: 0 <= i < |front| ==> front[i].packetId != last.packetId
    ensures forall r :: r in front ==> r.packetId != last.packetId
  {
  }

  lemma IndexGrows(m: map<int, DeliveryRecord>, front: seq<DeliveryRecord>, last: DeliveryRecord)
    requires Indexes(m, front) && forall r :: r in front ==> r.packetId != last.packetId
    ensures Indexes(m[last.packetId := last], front + [last])
  {
    assert last.packetId !in m;
  }

  lemma {:induction false} ReservedByPacketId(
    active: map<string, DeliveryRecord>, reserved: map<int, DeliveryRecord>, order: seq<DeliveryRecord>)
    requires Agree(active, reserved, order)
    ensures ByPacketId(order) == reserved && |reserved| == |order|
  {
    ByPacketIdHolds(order);
    forall id ensures id in ByPacketId(order) <==> id in reserved {
      if id in reserved {
        assert Attends(ByPacketId(order), reserved[id]);
      }
    }
    assert ByPacketId(order).Keys == reserved.Keys;
    forall id | id in reserved ensures ByPacketId(order)[id] == reserved[id] {
      assert Attends(ByPacketId(order), reserved[id]);
    }
  }

  /** Replay on a new generation: every record of the book is attached to it and holds one slot. */
  method ReplayDeliveries(book: DeliveryBook, session: Session, deadline: int)
    requires book.Valid() && session.deliveries == map[] && session.deliverySlots == 0 && session.pending == {}
    modifies session`deliveries, session`deliverySlots, book.order
    ensures book.Valid() && session.Serves(book) && session.deliveries == book.reserved
    ensures forall r :: r in book.order ==> r.View() == Attached(old(r.View()), session.generation, deadline)
  {
    ghost var order := book.order;
    ReservedByPacketId(book.active, book.reserved, order);
    AttachAll(session, book.order, deadline);
  }

  /** The loop over the records in the order of admission. */
  method AttachAll(session: Session, order: seq<DeliveryRecord>, deadline: int)
    requires Distinct(order) && session.deliveries == map[] && session.deliverySlots == 0
    modifies session`deliveries, session`deliverySlots, order
    ensures session.deliveries == ByPacketId(order) && session.deliverySlots == |order|
    ensures forall r :: r in order ==> r.View() == Attached(old(r.View()), session.generation, deadline)
    ensures forall r :: r in order ==> r.phase == Queued
  {
    for i := 0 to |order|
      invariant forall j :: 0 <= j < i ==> order[j].phase == Queued
      invariant session.deliveries == ByPacketId(order[..i]) && session.deliverySlots == i
      invariant forall j :: 0 <= j < |order| ==>
        order[j].View() == if j < i then Attached(old(order[j].View()), session.generation, deadline)
                           else old(order[j].View())
    {
      FreshEntry(order, i);
      AttachOne(session, order[i], deadline);
    }
    assert order[..|order|] == order;
  }

  method AttachOne(session: Session, record: DeliveryRecord, deadline: int)
    requires record.packetId !in session.deliveries
    modifies session`deliveries, session`deliverySlots, record
    ensures session.deliveries == old(session.deliveries)[record.packetId := record]
    ensures session.deliverySlots == old(session.deliverySlots) + 1
    ensures record.View() == Attached(old(record.View()), session.generation, deadline)
  {
    record.Attach(session.generation, deadline);
    session.Hold(record);
  }

  /** The next record is not among those attached so far. */
  lemma FreshEntry(order: seq<DeliveryRecord>, i: nat)
    requires Distinct(order) && i < |order|
    ensures order[i].packetId !in ByPacketId(order[..i])
    ensures ByPacketId(order[..i + 1]) == ByPacketId(order[..i])[order[i].packetId := order[i]]
    ensures forall j :: 0 <= j < |order| && j != i ==> order[j] != order[i]
  {
    ByPacketIdHolds(order[..i]);
    assert order[..i + 1][..i] == order[..i];
  }

  /** What a PUBACK for an in-memory delivery did. */
  datatype Ack = NotADelivery | Violation | Settled(record: DeliveryRecord)

  /**
   PUBACK of an in-memory delivery: slot, packet id and record are released together; an
   acknowledgement before the write is a protocol error that ends the generation.
   */
  method TakePuback(book: DeliveryBook, session: Session, id: int, code: int) returns (ack: Ack)
    requires book.Valid() && session.Serves(book)
    modifies book`active, book`reserved, book`order, session, book.order
    ensures book.Valid() && session.Serves(book)
    ensures ack.NotADelivery? <==> id !in old(session.deliveries)
    ensures ack.NotADelivery? ==> book.order == old(book.order) && unchanged(session)
    ensures ack.Violation? ==> book.order == old(book.order) && !session.alive
    ensures ack.Settled? ==>
      && ack.record == old(session.deliveries)[id] && old(ack.record.phase.AwaitingAck?)
      && session.deliveries == old(session.deliveries) - {id} && session.deliverySlots == old(session.deliverySlots) - 1
      && book.order == Without(old(book.order), ack.record.deliveryId)
      && ack.record.View() == if code < 128 then FinishedAcknowledged(old(ack.record.View()), Some(code))
                              else FinishedRejected(old(ack.record.View()), code)
  {
    if id !in session.deliveries { return NotADelivery; }
    var record := session.deliveries[id];
    if record.generation != Some(session.generation) || !record.phase.AwaitingAck? {
      AbortWith(book, session, "PUBACK arrived before recoverable PUBLISH write");
      return Violation;
    }
    SettleRecord(book, session, record, code);
    ack := Settled(record);
  }

  /** The accepted half: the record leaves session and book. */
  method SettleRecord(book: DeliveryBook, session: Session, record: DeliveryRecord, code: int)
    requires book.Valid() && session.Serves(book)
    requires Attends(session.deliveries, record) && record in book.order
    modifies book`active, book`reserved, book`order, session`deliveries, session`deliverySlots, record
    ensures book.Valid() && session.Serves(book)
    ensures session.deliveries == old(session.deliveries) - {record.packetId}
    ensures session.deliverySlots == old(session.deliverySlots) - 1
    ensures book.order == Without(old(book.order), record.deliveryId)
    ensures record.View() == if code < 128 then FinishedAcknowledged(old(record.View()), Some(code))
                             else FinishedRejected(old(record.View()), code)
  {
    assert record.packetId in session.deliveries.Keys;
    session.Release(record);
    if code < 128 {
      book.Acknowledge(record, Some(code));
    } else {
      book.Reject(record, code);
    }
  }

  /** Attached records are active records, so their slots cannot outnumber the book. */
  lemma SlotsWithinBook(book: DeliveryBook, session: Session)
    requires Agree(book.active, book.reserved, book.order) && session.Serves(book)
    ensures session.deliverySlots <= |book.active|
  {
    forall id | id in session.deliveries.Keys ensures id in book.reserved.Keys {
      assert id in session.deliveries;
    }
    SubsetSize(session.deliveries.Keys, book.reserved.Keys);
    SameSize(book.active, book.reserved, book.order);
  }

  lemma SubsetSize<T>(a: set<T>, b: set<T>)
    requires a <= b
    ensures |a| <= |b|
  {
    assert b == a + (b - a);
  }

  lemma {:induction false} DistinctSize<T>(s: seq<T>)
    requires forall i, j :: 0 <= i < j < |s| ==> s[i] != s[j]
    ensures |set x | x in s| == |s|
  {
    if s != [] {
      DistinctSize(s[1..]);
      assert (set x | x in s) == {s[0]} + (set x | x in s[1..]);
    }
  }

  lemma ActiveSize(active: map<string, DeliveryRecord>, reserved: map<int, DeliveryRecord>, order: seq<DeliveryRecord>)
    requires Agree(active, reserved, order)
    ensures |active| == |order|
  {
    var ids := seq(|order|, i requires 0 <= i < |order| => order[i].deliveryId);
    DistinctSize(ids);
    forall id | id in active.Keys ensures id in ids {
      var k :| 0 <= k < |order| && order[k] == active[id];
      assert ids[k] == id;
    }
    forall id | id in ids ensures id in active.Keys {
      var k :| 0 <= k < |ids| && ids[k] == id;
      assert order[k] in order;
    }
    assert (set x | x in ids) == active.Keys;
  }

  lemma ReservedSize(active: map<string, DeliveryRecord>, reserved: map<int, DeliveryRecord>,
      order: seq<DeliveryRecord>)
    requires Agree(active, reserved, order)
    ensures |reserved| == |order|
  {
    var ids := seq(|order|, i requires 0 <= i < |order| => order[i].packetId);
    DistinctSize(ids);
    forall id | id in reserved.Keys ensures id in ids {
      var k :| 0 <= k < |order| && order[k] == reserved[id];
      assert ids[k] == id;
    }
    forall id | id in ids ensures id in reserved.Keys {
      var k :| 0 <= k < |ids| && ids[k] == id;
      assert order[k] in order;
    }
    assert (set x | x in ids) == reserved.Keys;
  }

  /** The three collections have the same size. */
  lemma SameSize(active: map<string, DeliveryRecord>, reserved: map<int, DeliveryRecord>, order: seq<DeliveryRecord>)
    requires Agree(active, reserved, order)
    ensures |active| == |order| == |reserved|
  {
    ActiveSize(active, reserved, order);
    ReservedSize(active, reserved, order);
  }
}

/** Packet identifiers 1..65535 and the wrap-around cursor that hands them out. */
module PacketIds {
  import opened Optional

  predicate IsId(id: int) { 1 <= id <= 65535 }

  /** The cursor `k` places further on. */
  function Ahead(cursor: int, k: nat): int { (cursor - 1 + k) % 65535 + 1 }

  datatype Call = Call(id: Option<int>, cursor: int, skipped: nat)

  /** First free identifier from the cursor on; a full turn leaves the cursor where it was. */
  function Allocate(cursor: int, taken: set<int>): Call { Scan(cursor, taken, 0) }

  function Scan(cursor: int, taken: set<int>, k: nat): Call
    requires k <= 65535
    decreases 65535 - k
  {
    if k == 65535 then Call(None, cursor, k)
    else if Ahead(cursor, k) !in taken then Call(Some(Ahead(cursor, k)), Ahead(cursor, k + 1), k)
    else Scan(cursor, taken, k + 1)
  }

  lemma AheadNext(cursor: int, k: nat)
    requires IsId(cursor)
    ensures IsId(Ahead(cursor, k)) && Ahead(cursor, 0) == cursor
    ensures Ahead(cursor, k + 1) == if Ahead(cursor, k) == 65535 then 1 else Ahead(cursor, k) + 1
  {
  }

  lemma {:induction false} ScanFinds(cursor: int, taken: set<int>, from: nat, k: nat)
    requires from <= k < 65535
    requires forall i :: from <= i < k ==> Ahead(cursor, i) in taken
    requires Ahead(cursor, k) !in taken
    ensures Scan(cursor, taken, from) == Call(Some(Ahead(cursor, k)), Ahead(cursor, k + 1), k)
    decreases k - from
  {
    if from < k {
      ScanFinds(cursor, taken, from + 1, k);
    }
  }

  /** The first `k` places from the cursor on are taken. */
  predicate Occupied(cursor: int, taken: set<int>, k: nat) { forall i :: 0 <= i < k ==> Ahead(cursor, i) in taken }

  lemma OccupiedMore(cursor: int, taken: set<int>, k: nat)
    requires Occupied(cursor, taken, k) && Ahead(cursor, k) in taken
    ensures Occupied(cursor, taken, k + 1)
  {
  }

  lemma AllocateFinds(cursor: int, taken: set<int>, k: nat)
    requires k < 65535
    requires Occupied(cursor, taken, k)
    requires Ahead(cursor, k) !in taken
    ensures Allocate(cursor, taken) == Call(Some(Ahead(cursor, k)), Ahead(cursor, k + 1), k)
  {
    ScanFinds(cursor, taken, 0, k);
  }

  lemma {:induction false} ScanFails(cursor: int, taken: set<int>, from: nat)
    requires from <= 65535
    requires forall i :: from <= i < 65535 ==> Ahead(cursor, i) in taken
    ensures Scan(cursor, taken, from) == Call(None, cursor, 65535)
    decreases 65535 - from
  {
    if from < 65535 {
      ScanFails(cursor, taken, from + 1);
    }
  }

  /** A full turn ends where it began. */
  lemma FullCircle(cursor: int)
    requires IsId(cursor)
    ensures Ahead(cursor, 65535) == cursor
  {
    ModShift(cursor - 1 + 65535, 1);
  }

  lemma AllocateFails(cursor: int, taken: set<int>)
    requires IsId(cursor)
    requires Occupied(cursor, taken, 65535)
    ensures Allocate(cursor, taken) == Call(None, Ahead(cursor, 65535), 65535)
  {
    FullCircle(cursor);
    ScanFails(cursor, taken, 0);
  }

  lemma {:induction false} ScanSound(cursor: int, taken: set<int>, from: nat)
    requires IsId(cursor) && from <= 65535
    ensures var call := Scan(cursor, taken, from);
            && from <= call.skipped <= 65535
            && (forall i :: from <= i < call.skipped ==> Ahead(cursor, i) in taken)
            && (call.id.Some? ==>
                 && call.skipped < 65535 && call.id.value == Ahead(cursor, call.skipped)
                 && call.id.value !in taken && IsId(call.id.value) && call.cursor == Ahead(cursor, call.skipped + 1))
            && (call.id.None? ==> call.skipped == 65535 && call.cursor == cursor)
    decreases 65535 - from
  {
    if from < 65535 && Ahead(cursor, from) in taken {
      ScanSound(cursor, taken, from + 1);
    }
  }

  /** Every identifier is some place ahead of the cursor, within one turn. */
  lemma PlaceOf(cursor: int, id: int) returns (k: nat)
    requires IsId(cursor) && IsId(id)
    ensures k < 65535 && Ahead(cursor, k) == id
  {
    k := if id >= cursor then id - cursor else id - cursor + 65535;
  }

  /** Allocation returns a free identifier, and fails exactly when all 65535 are taken. */
  lemma AllocatedIsFree(cursor: int, taken: set<int>)
    requires IsId(cursor)
    ensures var call := Allocate(cursor, taken);
            && IsId(call.cursor)
            && (call.id.Some? ==> IsId(call.id.value) && call.id.value !in taken)
            && (call.id.None? <==> forall id :: IsId(id) ==> id in taken)
  {
    ScanSound(cursor, taken, 0);
    var call := Allocate(cursor, taken);
    if call.id.None? {
      forall id | IsId(id) ensures id in taken {
        var k := PlaceOf(cursor, id);
      }
    }
  }

  // ---------- no early reuse ----------

  /** Allocations one after another, successful or not, each with whatever was taken at the time. */
  predicate Chain(cursors: seq<int>, taken: seq<set<int>>) {
    && |cursors| == |taken| + 1
    && (forall k :: 0 <= k < |cursors| ==> IsId(cursors[k]))
    && (forall k :: 0 <= k < |taken| ==> Allocate(cursors[k], taken[k]).cursor == cursors[k + 1])
  }

  /** The scan of one call came by `id`, at place `j` of its way, and issued it there or found it occupied. */
  predicate CameBy(cursor: int, taken: set<int>, id: int, j: nat) {
    && j <= Allocate(cursor, taken).skipped && Ahead(cursor, j) == id
    && (Allocate(cursor, taken).id == Some(id) || id in taken)
  }

  /** The cursor passed `id` during one of the calls. */
  ghost predicate Passed(cursors: seq<int>, taken: seq<set<int>>, id: int)
    requires Chain(cursors, taken)
  {
    exists k: nat, j: nat :: k < |taken| && CameBy(cursors[k], taken[k], id, j)
  }

  lemma AheadAdd(cursor: int, a: nat, b: nat)
    requires IsId(cursor)
    ensures Ahead(Ahead(cursor, a), b) == Ahead(cursor, a + b)
  {
    assert (cursor - 1 + a) % 65535 == (cursor - 1 + a) - 65535 * ((cursor - 1 + a) / 65535);
    var q := (cursor - 1 + a) / 65535;
    ModShift(cursor - 1 + a + b, q);
  }

  lemma {:induction false} ModShift(x: int, q: nat)
    requires x >= 65535 * q
    ensures (x - 65535 * q) % 65535 == x % 65535
    decreases q
  {
    if q > 0 {
      ModShift(x - 65535, q - 1);
      assert (x - 65535) % 65535 == x % 65535;
    }
  }

  /** The places a call moves the cursor on: those it skipped and the one it issued; a failure goes once round. */
  function Advance(cursor: int, taken: set<int>): nat {
    var call := Allocate(cursor, taken);
    if call.id.Some? then call.skipped + 1 else call.skipped
  }

  /** How far a series of calls moves the cursor. */
  function Span(cursors: seq<int>, taken: seq<set<int>>): nat
    requires |cursors| == |taken| + 1
    decreases |taken|
  {
    if taken == [] then 0
    else
      var m := |taken| - 1;
      Span(cursors[..m + 1], taken[..m]) + Advance(cursors[m], taken[m])
  }

  lemma ChainPrefix(cursors: seq<int>, taken: seq<set<int>>)
    requires Chain(cursors, taken) && |taken| > 0
    ensures Chain(cursors[..|taken|], taken[..|taken| - 1])
  {
  }

  lemma {:induction false} SpanMoves(cursors: seq<int>, taken: seq<set<int>>)
    requires Chain(cursors, taken)
    ensures cursors[|taken|] == Ahead(cursors[0], Span(cursors, taken)) && Span(cursors, taken) >= |taken|
    decreases |taken|
  {
    if |taken| == 0 {
      AheadNext(cursors[0], 0);
    } else {
      var m := |taken| - 1;
      ChainPrefix(cursors, taken);
      SpanMoves(cursors[..m + 1], taken[..m]);
      MovesOn(cursors[0], Span(cursors[..m + 1], taken[..m]), cursors[m], taken[m]);
    }
  }

  lemma MovesOn(start: int, e: nat, cursor: int, taken: set<int>)
    requires IsId(start) && IsId(cursor) && cursor == Ahead(start, e)
    ensures Allocate(cursor, taken).cursor == Ahead(start, e + Advance(cursor, taken)) && Advance(cursor, taken) >= 1
  {
    AdvanceMoves(cursor, taken);
    AheadAdd(start, e, Advance(cursor, taken));
  }

  lemma AdvanceMoves(cursor: int, taken: set<int>)
    requires IsId(cursor)
    ensures Allocate(cursor, taken).cursor == Ahead(cursor, Advance(cursor, taken)) && Advance(cursor, taken) >= 1
  {
    FullCircle(cursor);
    ScanSound(cursor, taken, 0);
  }

  /** Every place within that distance was passed by the scan of one of the calls. */
  lemma {:induction false} SpanPasses(cursors: seq<int>, taken: seq<set<int>>, i: nat)
    requires Chain(cursors, taken) && i < Span(cursors, taken)
    ensures Passed(cursors, taken, Ahead(cursors[0], i))
    decreases |taken|
  {
    var m := |taken| - 1;
    ChainPrefix(cursors, taken);
    var before, earlier := cursors[..m + 1], taken[..m];
    var e := Span(before, earlier);
    if i < e {
      SpanPasses(before, earlier, i);
      PassedEarlier(cursors, taken, Ahead(cursors[0], i));
    } else {
      SpanMoves(before, earlier);
      PassedHere(cursors, taken, e, i - e);
    }
  }

  /** The last call begins where the earlier ones ended. */
  lemma PassedHere(cursors: seq<int>, taken: seq<set<int>>, e: nat, j: nat)
    requires Chain(cursors, taken) && |taken| > 0 && cursors[|taken| - 1] == Ahead(cursors[0], e)
    requires j < Advance(cursors[|taken| - 1], taken[|taken| - 1])
    ensures Passed(cursors, taken, Ahead(cursors[0], e + j))
  {
    AheadAdd(cursors[0], e, j);
    PassedLast(cursors, taken, j);
  }

  lemma PassedLast(cursors: seq<int>, taken: seq<set<int>>, j: nat)
    requires Chain(cursors, taken) && |taken| > 0
    requires var m := |taken| - 1; j < Advance(cursors[m], taken[m])
    ensures Passed(cursors, taken, Ahead(cursors[|taken| - 1], j))
  {
    var m := |taken| - 1;
    ScanSound(cursors[m], taken[m], 0);
    assert CameBy(cursors[m], taken[m], Ahead(cursors[m], j), j);
  }

  lemma PassedEarlier(cursors: seq<int>, taken: seq<set<int>>, id: int)
    requires Chain(cursors, taken) && |taken| > 0
    requires var m := |taken| - 1; Chain(cursors[..m + 1], taken[..m]) && Passed(cursors[..m + 1], taken[..m], id)
    ensures Passed(cursors, taken, id)
  {
    var m := |taken| - 1;
    var k: nat, j: nat :| k < m && CameBy(cursors[..m + 1][k], taken[..m][k], id, j);
    assert cursors[k] == cursors[..m + 1][k] && taken[k] == taken[..m][k];
    assert CameBy(cursors[k], taken[k], id, j);
  }

  /**
   An identifier is not handed out again until the cursor has passed every other one: if
   the last of any calls made after it was issued returns it again, then the scan of one
   of these calls came by each identifier and issued it or found it occupied there.
   */
  lemma NoEarlyReuse(first: int, cursors: seq<int>, taken: seq<set<int>>, id: int)
    requires Chain(cursors, taken) && |taken| > 0 && IsId(first) && IsId(id)
    requires cursors[0] == Ahead(first, 1)
    requires Allocate(cursors[|taken| - 1], taken[|taken| - 1]).id == Some(first)
    ensures Passed(cursors, taken, id)
  {
    var m := |taken| - 1;
    ScanSound(cursors[m], taken[m], 0);
    var call := Allocate(cursors[m], taken[m]);
    AheadAdd(cursors[m], call.skipped, 1);
    assert cursors[m + 1] == Ahead(first, 1) == cursors[0];
    SpanMoves(cursors, taken);
    FullTurn(cursors[0], Span(cursors, taken));
    var k := PlaceOf(cursors[0], id);
    SpanPasses(cursors, taken, k);
  }

  /** A cursor that comes back after moving has made at least one full turn. */
  lemma FullTurn(cursor: int, d: nat)
    requires IsId(cursor) && d > 0 && Ahead(cursor, d) == cursor
    ensures d >= 65535
  {
  }
}
