/**
 Capacity of the durable client under every interleaving: ordinary requests,
 attached deliveries and the provisional slot of a suspended admission never exceed
 `max_inflight` on a live session, the slot counter is exact, and no request can
 take a packet id that the book or a suspended admission has reserved.
 */
module DurableCapacity {
  import opened Optional
  import opened DeliveryRecords
  import opened PacketIds
  import opened DurableMachine
  import opened DurableReservations

  /** An admission that has not yet transferred or returned its slot holds one on its own generation. */
  function Held(c: Client): nat {
    if (c.gate.Admitting? || c.gate.Joining?) && c.gate.generation == c.session.generation then 1 else 0
  }

  ghost predicate NoRepeats(ids: seq<string>) { forall i, j :: 0 <= i < j < |ids| ==> ids[i] != ids[j] }

  ghost predicate BookOk(c: Client) {
    && NoRepeats(c.order)
    && (forall id :: id in c.order <==> id in c.active)
    && IsId(c.cursor) && IsId(c.session.nextId)
    && (forall id :: id in c.active ==> IsId(c.active[id].packetId))
  }

  ghost predicate GateOk(c: Client) {
    match c.gate
    case Free => true
    case Admitting(m, g, _) => IsId(m.packetId) && m.id !in c.active && g <= c.session.generation
    case Joining(id, g, _) => id in c.active && g <= c.session.generation
        && (g == c.session.generation ==> id !in c.session.deliveries)
    case Acking(id, _, _, _) => id in c.active && (c.session.alive ==> id in c.session.deliveries)
    case Checking(id, purpose, _) =>
      id in c.active && (purpose.ForReplay? ==> purpose.generation == c.session.generation)
    case Reattaching(id, g, _) => id in c.active && g == c.session.generation
    case Marking(id, _) => id in c.active
  }

  ghost predicate ReplayOk(c: Client) {
    && NoRepeats(c.todo)
    && (forall id :: id in c.todo ==> id !in c.session.deliveries)
    && (ReplayAtGate(c) ==> c.gate.id !in c.todo && c.gate.id !in c.session.deliveries)
    && c.session.pending == {} && Held(c) == 0
  }

  ghost predicate SessionOk(c: Client, config: Config) {
    && c.session.slots == |c.session.deliveries| + Held(c)
    && (forall id :: id in c.session.deliveries ==> id in c.active)
    && |c.session.pending - {0}| + c.session.slots <= config.maxInflight
    && (forall id :: id in c.active ==> c.active[id].packetId !in c.session.pending)
    && (c.gate.Admitting? ==> c.gate.message.packetId !in c.session.pending)
    && (!c.ready ==> ReplayOk(c))
    && (c.ready ==> !ReplayAtGate(c))
  }

  ghost predicate Seats(c: Client, config: Config) {
    && BookOk(c)
    && GateOk(c) && (c.stopped ==> !c.session.alive)
    && |c.active| + (if c.gate.Admitting? then 1 else 0) <= config.maxInflight
    && Seated(c, config)
  }

  ghost predicate Seated(c: Client, config: Config) {
    && (c.session.alive ==> SessionOk(c, config))
    && (!c.session.alive ==> c.session.deliveries == {} && c.session.slots == 0 && c.session.pending == {})
  }

  // ---------- each step ----------

  lemma SubsetSize<T>(a: set<T>, b: set<T>)
    requires forall x :: x in a ==> x in b
    ensures |a| <= |b|
  {
    assert a <= b;
    assert b == a + (b - a);
  }

  /** What an allocator call guarantees of its result. */
  predicate FreshCall(call: Call, taken: set<int>) {
    IsId(call.cursor) && (call.id.Some? ==> IsId(call.id.value) && call.id.value !in taken)
  }

  lemma AssignedSession(c: Client, d: Client, config: Config, m: Message)
    requires SessionOk(c, config) && c.gate.Free? && c.ready && |c.active| + |c.session.pending| < config.maxInflight
    requires m.packetId !in c.session.pending
    requires d == c.(cursor := d.cursor, reserved := d.reserved, session := c.session.(slots := c.session.slots + 1),
        gate := Admitting(m, c.session.generation, None))
    ensures SessionOk(d, config)
  {
    SubsetSize(c.session.deliveries, c.active.Keys);
    SubsetSize(c.session.pending - {0}, c.session.pending);
  }

  lemma AssignedSeats(c: Client, config: Config, call: Call, id: string, topic: string, payload: seq<int>, expires: int)
    requires Seats(c, config) && FreshCall(call, c.session.pending)
    requires c.gate.Free? && !c.stopped && c.ready && c.session.alive && id !in c.active
    requires |c.active| + |c.session.pending| < config.maxInflight
    ensures Seats(Assigned(c, call, id, topic, payload, expires), config)
  {
    var d := Assigned(c, call, id, topic, payload, expires);
    if call.id.Some? {
      AssignedSession(c, d, config, d.gate.message);
    } else {
      assert SessionOk(d, config);
    }
  }

  lemma AdmitSeats(c: Client, config: Config, id: string, topic: string, payload: seq<int>, expires: int, now: int)
    requires Seats(c, config)
    ensures Seats(Admit(c, config, id, topic, payload, expires, now), config)
  {
    AllocatedIsFree(c.cursor, c.reserved.Keys + c.session.pending);
    if Admit(c, config, id, topic, payload, expires, now) != c {
      AssignedSeats(c, config, Allocate(c.cursor, c.reserved.Keys + c.session.pending), id, topic, payload, expires);
    }
  }

  lemma GrantSession(c: Client, config: Config, id: int, next: int)
    requires SessionOk(c, config) && c.ready && |c.session.pending| + c.session.slots < config.maxInflight
    requires id !in c.session.pending && IsId(id)
    requires (forall k :: k in c.active ==> c.active[k].packetId != id)
        && (c.gate.Admitting? ==> c.gate.message.packetId != id)
    ensures SessionOk(c.(session := c.session.(nextId := next, pending := c.session.pending + {id})), config)
  {
    var d := c.(session := c.session.(nextId := next, pending := c.session.pending + {id}));
    assert d.session.pending - {0} == (c.session.pending - {0}) + {id};
    SubsetSize(c.session.pending - {0}, c.session.pending);
  }

  lemma GrantSeats(c: Client, d: Client, config: Config, id: int, next: int)
    requires Reservations(c) && Seats(c, config) && c.ready && c.session.alive
        && |c.session.pending| + c.session.slots < config.maxInflight
    requires id !in c.reserved && id !in c.session.pending && IsId(id) && IsId(next)
    requires d == c.(session := c.session.(nextId := next, pending := c.session.pending + {id}))
    ensures Seats(d, config)
  {
    FreeIds(c, id);
    GrantSession(c, config, id, next);
  }

  lemma GrantedSeats(c: Client, config: Config, call: Call)
    requires Reservations(c) && Seats(c, config) && FreshCall(call, c.session.pending + c.reserved.Keys)
    requires c.ready && c.session.alive && |c.session.pending| + c.session.slots < config.maxInflight
    ensures Seats(Granted(c, call), config)
  {
    if call.id.Some? {
      GrantSeats(c, Granted(c, call), config, call.id.value, call.cursor);
    } else {
      CursorSeats(c, Granted(c, call), config);
    }
  }

  lemma RequestSeats(c: Client, config: Config)
    requires Reservations(c) && Seats(c, config)
    ensures Seats(Request(c, config), config)
  {
    AllocatedIsFree(c.session.nextId, c.session.pending + c.reserved.Keys);
    if Request(c, config) != c {
      GrantedSeats(c, config, Allocate(c.session.nextId, c.session.pending + c.reserved.Keys));
    }
  }

  lemma CursorSeats(c: Client, d: Client, config: Config)
    requires Seats(c, config) && d == c.(session := c.session.(nextId := d.session.nextId)) && IsId(d.session.nextId)
    ensures Seats(d, config)
  {
    assert c.session.alive ==> SessionOk(d, config);
  }

  lemma AbortSeats(c: Client, config: Config)
    requires Seats(c, config)
    ensures Seats(Aborted(c), config) && Seats(Stopped(c), config)
    ensures Aborted(c).gate == c.gate && !Aborted(c).session.alive
  {
    AbortedIs(c);
    GoneSeats(c, Aborted(c), config);
    GoneSeats(c, Stopped(c), config);
  }

  lemma AbortedIs(c: Client)
    ensures SameIds(c, Aborted(c)) && SameIds(c, Stopped(c)) && Aborted(c).gate == c.gate && !Aborted(c).session.alive
    ensures Aborted(c).session.generation == c.session.generation
    ensures !c.session.alive ==> Aborted(c) == c
    ensures c.session.alive ==>
      Aborted(c).session.deliveries == {} && Aborted(c).session.slots == 0 && Aborted(c).session.pending == {}
  {
    assert Aborted(c).active.Keys == c.active.Keys;
  }

  /** Without a connection only the book and the gate holder have seats. */
  lemma GoneSeats(c: Client, d: Client, config: Config)
    requires Seats(c, config) && SameIds(c, d) && d.gate == c.gate && d.session.generation == c.session.generation
    requires !d.session.alive && d.session.deliveries == {} && d.session.slots == 0 && d.session.pending == {}
    ensures Seats(d, config)
  {
    SameBook(c, d);
  }

  /** A gate holder that has its answer rewrites handles and goes on to attach, to mark, or to let go. */
  predicate Onwards(c: Client, d: Client) {
    && (c.gate.Checking? || c.gate.Marking?)
    && d.session == c.session && d.ready == c.ready && d.todo == c.todo && d.stopped == c.stopped
    && (|| d.gate.Free?
        || (d.gate.Marking? && d.gate.id == c.gate.id)
        || (d.gate.Reattaching? && c.gate.Checking? && d.gate.id == c.gate.id
            && c.gate.purpose == ForReplay(d.gate.generation)))
  }

  lemma OnwardsSession(c: Client, d: Client, config: Config)
    requires SessionOk(c, config) && SameIds(c, d) && Onwards(c, d)
    ensures SessionOk(d, config)
  {
    assert Held(d) == Held(c) == 0;
    assert ReplayAtGate(d) ==> ReplayAtGate(c) && d.gate.id == c.gate.id;
    assert forall id :: id in d.active <==> id in c.active;
  }

  lemma OnwardsSeats(c: Client, d: Client, config: Config)
    requires Seats(c, config) && SameIds(c, d) && Onwards(c, d)
    ensures Seats(d, config)
  {
    SameBook(c, d);
    if c.session.alive {
      OnwardsSession(c, d, config);
    }
  }

  /** The provisional slot goes back to the living session of its own generation. */
  lemma GiveUpSession(c: Client, d: Client, config: Config)
    requires SessionOk(c, config) && c.session.alive && d.active == c.active && d.gate.Free?
    requires d.todo == c.todo && d.ready == c.ready
    requires d.session == if c.gate.Admitting? || c.gate.Joining? then SlotBack(c.session, c.gate.generation)
        else c.session
    ensures SessionOk(d, config)
    ensures c.session.slots - d.session.slots == Held(c) && d.session.deliveries == c.session.deliveries
  {
    assert d.session.slots == |d.session.deliveries|;
  }

  /** Giving up an uncommitted operation returns the provisional slot it may hold, once. */
  lemma GiveUpSeats(c: Client, config: Config)
    requires Seats(c, config) && Uncommitted(c.gate)
    ensures Seats(Withdrawn(c), config)
    ensures c.session.alive ==>
      c.session.slots - Withdrawn(c).session.slots == Held(c) && Withdrawn(c).session.deliveries == c.session.deliveries
  {
    if c.session.alive {
      GiveUpSession(c, Withdrawn(c), config);
    }
  }

  lemma RefuseSeats(c: Client, config: Config)
    requires Seats(c, config)
    ensures Seats(Refuse(c), config)
  {
    if Uncommitted(c.gate) {
      GiveUpSeats(c, config);
      AbortSeats(Withdrawn(c), config);
    }
  }

  lemma {:induction false} WithoutOk(order: seq<string>, id: string)
    requires NoRepeats(order)
    ensures NoRepeats(Without(order, id))
    ensures forall x :: x in Without(order, id) <==> x in order && x != id
  {
    if order != [] {
      var tail := order[1..];
      assert forall x :: x in order <==> x == order[0] || x in tail;
      assert order[0] !in tail;
      if order[0] != id {
        WithoutOk(tail, id);
        var rest := Without(tail, id);
        assert order[0] !in rest;
        assert Without(order, id) == [order[0]] + rest;
      }
    }
  }

  /** A step that only rewrites handles leaves the book's identifiers alone. */
  predicate SameIds(c: Client, d: Client) {
    && d.active.Keys == c.active.Keys
        && (forall id :: id in c.active ==> d.active[id].packetId == c.active[id].packetId)
    && d.order == c.order && d.cursor == c.cursor && d.session.nextId == c.session.nextId
  }

  lemma SameBook(c: Client, d: Client)
    requires BookOk(c) && SameIds(c, d)
    ensures BookOk(d) && |d.active| == |c.active|
  {
    assert |d.active| == |d.active.Keys| && |c.active| == |c.active.Keys|;
  }

  lemma EndedSeats(c: Client, config: Config, id: string, purpose: Purpose)
    requires Seats(c, config) && c.gate.Checking? && id in c.active
    ensures Seats(Ended(c, id, purpose), config)
  {
    var d := Terminated(c, id, if purpose.ForWrite? || purpose.LastLook? then Resting else c.writer);
    TerminatedOnwards(c, id, d.writer);
    OnwardsSeats(c, d, config);
    AbortSeats(d, config);
  }

  lemma TerminatedOnwards(c: Client, id: string, writer: Writer)
    requires c.gate.Checking? && id in c.active
    ensures SameIds(c, Terminated(c, id, writer)) && Onwards(c, Terminated(c, id, writer))
  {
  }

  lemma AppendOk(order: seq<string>, id: string)
    requires NoRepeats(order) && id !in order
    ensures NoRepeats(order + [id]) && forall x :: x in order + [id] <==> x in order || x == id
  {
  }

  lemma BookGrows(c: Client, d: Client, id: string, h: Handle)
    requires BookOk(c) && id !in c.active && IsId(h.packetId)
    requires d.active == c.active[id := h] && d.order == c.order + [id]
    requires d.cursor == c.cursor && d.session.nextId == c.session.nextId
    ensures BookOk(d) && |d.active| == |c.active| + 1
  {
    AppendOk(c.order, id);
  }

  lemma PublishedSession(c: Client, d: Client, config: Config, m: Message, g: nat, stored: Option<nat>, h: Handle)
    requires Seats(c, config) && c.gate == Admitting(m, g, stored) && c.session.alive
    requires d.active == c.active[m.id := h] && h.packetId == m.packetId && d.todo == c.todo && d.ready == c.ready
    requires (d.gate == Joining(m.id, g, false) && d.session == c.session && g == c.session.generation)
             || (d.gate.Free? && d.session == SlotBack(c.session, g))
    ensures SessionOk(d, config)
  {
    assert d.session.slots == |d.session.deliveries| + Held(d);
  }

  lemma InsertedSeats(c: Client, config: Config, m: Message, g: nat, k: nat, h: Handle, gate: Gate, session: Session)
    requires Seats(c, config) && c.gate == Admitting(m, g, Some(k)) && h.packetId == m.packetId
    requires (gate == Joining(m.id, g, false) && session == c.session && c.session.alive && g == c.session.generation)
             || (gate.Free? && session == SlotBack(c.session, g))
    ensures Seats(Inserted(c, m.id, h, gate, session), config)
  {
    var d := Inserted(c, m.id, h, gate, session);
    BookGrows(c, d, m.id, h);
    if c.session.alive {
      PublishedSession(c, d, config, m, g, Some(k), h);
    }
  }

  lemma PublishedSeats(c: Client, config: Config, m: Message, g: nat, sequence: nat)
    requires Seats(c, config) && c.gate == Admitting(m, g, Some(sequence))
    ensures Seats(Resume(c), config)
  {
    var h := Admitted(m, sequence);
    if c.ready && c.session.alive && c.session.generation == g {
      InsertedSeats(c, config, m, g, sequence, h, Joining(m.id, g, false), c.session);
    } else {
      InsertedSeats(c, config, m, g, sequence, Parked(h), Free, SlotBack(c.session, g));
    }
  }

  /** Joining turns the provisional slot into the record's own; a replay takes a new one. */
  lemma AttachSession(c: Client, d: Client, config: Config, id: string, g: nat)
    requires Seats(c, config) && c.session.alive
        && (c.gate == Joining(id, g, true) || c.gate == Reattaching(id, g, true))
    requires SameIds(c, d) && d.gate.Free? && d.todo == c.todo && d.ready == c.ready
    requires d.session ==
      if c.session.generation != g then c.session
      else c.session.(slots := if c.gate.Joining? then c.session.slots else c.session.slots + 1,
                      deliveries := c.session.deliveries + {id}, queue := c.session.queue + {id})
    ensures SessionOk(d, config)
  {
    assert id in c.active;
    if c.session.generation != g {
      assert Held(c) == 0;
    } else if c.gate.Joining? {
      assert id !in c.session.deliveries && !ReplayAtGate(c);
      assert d.session.slots == |d.session.deliveries| + Held(d);
    } else {
      ReattachSession(c, d, config, id);
    }
  }

  /** A replay finds no request pending, so the book's own bound is enough. */
  lemma ReattachSession(c: Client, d: Client, config: Config, id: string)
    requires SessionOk(c, config) && c.gate.Reattaching? && c.gate.id == id && id in c.active
    requires |c.active| <= config.maxInflight
    requires SameIds(c, d) && d.gate.Free? && d.todo == c.todo && d.ready == c.ready
    requires d.session == c.session.(slots := c.session.slots + 1, deliveries := c.session.deliveries + {id},
        queue := c.session.queue + {id})
    ensures SessionOk(d, config)
  {
    assert ReplayAtGate(c) && id !in c.session.deliveries && id !in c.todo;
    assert d.session.slots == |d.session.deliveries| + Held(d);
    SubsetSize(d.session.deliveries, c.active.Keys);
    assert c.session.pending - {0} == {};
  }

  lemma AttachIds(c: Client, id: string, g: nat, slots: nat)
    requires id in c.active
    ensures SameIds(c, AttachTo(c, id, g, slots))
  {
  }

  lemma AttachSeats(c: Client, config: Config, id: string, g: nat, slots: nat)
    requires Seats(c, config) && (c.gate == Joining(id, g, true) || c.gate == Reattaching(id, g, true))
    requires slots == if c.gate.Joining? then c.session.slots else c.session.slots + 1
    ensures Seats(AttachTo(c, id, g, slots), config)
  {
    var d := AttachTo(c, id, g, slots);
    AttachIds(c, id, g, slots);
    SameBook(c, d);
    if c.session.alive {
      AttachSession(c, d, config, id, g);
    }
  }

  lemma StartedSeats(c: Client, config: Config, id: string)
    requires Seats(c, config) && id in c.active && (c.gate.Checking? || c.gate.Marking?)
    ensures Seats(MarkedStarted(c, id), config)
  {
    OnwardsSeats(c, MarkedStarted(c, id), config);
  }

  lemma ReleasedSeats(c: Client, config: Config, id: string, g: nat, code: int)
    requires Seats(c, config) && c.gate == Acking(id, g, code, true)
    ensures Seats(Resume(c), config)
  {
    LeavingSeats(c, Released(c, id, code), config, id);
  }

  /** One delivery leaves the book with its slot. */
  predicate Leaves(c: Client, d: Client, id: string) {
    && d.active == c.active - {id} && d.order == Without(c.order, id) && d.gate.Free?
    && d.todo == c.todo && d.ready == c.ready && d.stopped == c.stopped && d.cursor == c.cursor
    && d.session == c.session.(deliveries := c.session.deliveries - {id},
           slots := if c.session.slots > 0 then c.session.slots - 1 else 0)
  }

  lemma LeavingSeats(c: Client, d: Client, config: Config, id: string)
    requires Seats(c, config) && c.gate.Acking? && c.gate.id == id && Leaves(c, d, id)
    ensures Seats(d, config)
  {
    assert id in c.active && (c.session.alive ==> id in c.session.deliveries);
    ReleasedIds(c, d, id);
    ReleasedSeat(c, d, config, id);
  }

  lemma ReleasedSeat(c: Client, d: Client, config: Config, id: string)
    requires Seated(c, config) && c.gate.Acking? && c.gate.id == id && Leaves(c, d, id)
    requires c.session.alive ==> id in c.session.deliveries
    ensures Seated(d, config)
  {
    if c.session.alive {
      ReleasedSession(c, d, config, id);
    } else {
      assert c.session.deliveries - {id} == {};
    }
  }

  lemma ReleasedIds(c: Client, d: Client, id: string)
    requires BookOk(c) && id in c.active && Leaves(c, d, id)
    ensures BookOk(d) && |d.active| == |c.active| - 1
  {
    WithoutOk(c.order, id);
    assert d.active.Keys == c.active.Keys - {id};
    assert |d.active| == |d.active.Keys| && |c.active| == |c.active.Keys|;
  }

  lemma ReleasedSession(c: Client, d: Client, config: Config, id: string)
    requires SessionOk(c, config) && c.gate.Acking? && c.gate.id == id && id in c.session.deliveries
    requires Leaves(c, d, id)
    ensures SessionOk(d, config)
  {
    assert |d.session.deliveries| == |c.session.deliveries| - 1;
    assert Held(c) == 0 && Held(d) == 0;
  }

  lemma CheckedSeats(c: Client, config: Config, id: string, purpose: Purpose, verdict: Expiry)
    requires Seats(c, config) && c.gate == Checking(id, purpose, Some(verdict))
    ensures Seats(Checked(c, id, purpose, verdict), config)
  {
    if !verdict.StillPending? || purpose.LastLook? {
      EndedSeats(c, config, id, purpose);
    } else {
      CheckedOnwards(c, id, purpose, verdict);
      OnwardsSeats(c, Checked(c, id, purpose, verdict), config);
    }
  }

  lemma CheckedOnwards(c: Client, id: string, purpose: Purpose, verdict: Expiry)
    requires c.gate == Checking(id, purpose, Some(verdict)) && id in c.active
    requires verdict.StillPending? && !purpose.LastLook?
    ensures var d := Checked(c, id, purpose, verdict); SameIds(c, d) && Onwards(c, d)
  {
  }

  lemma ResumeSeats(c: Client, config: Config)
    requires Seats(c, config)
    ensures Seats(Resume(c), config)
  {
    if c.gate.Joining? || c.gate.Reattaching? || c.gate.Marking? {
      ResumeUpdate(c, config);
    } else if c.gate.Checking? {
      ResumeCheck(c, config);
    } else {
      ResumeChange(c, config);
    }
  }

  lemma ResumeUpdate(c: Client, config: Config)
    requires Seats(c, config) && (c.gate.Joining? || c.gate.Reattaching? || c.gate.Marking?)
    ensures Seats(Resume(c), config)
  {
    if c.gate.committed {
      match c.gate {
        case Joining(id, g, _) => AttachSeats(c, config, id, g, c.session.slots);
        case Reattaching(id, g, _) => AttachSeats(c, config, id, g, c.session.slots + 1);
        case Marking(id, _) => StartedSeats(c, config, id);
      }
    }
  }

  lemma ResumeCheck(c: Client, config: Config)
    requires Seats(c, config) && c.gate.Checking?
    ensures Seats(Resume(c), config)
  {
    if c.gate.verdict.Some? {
      CheckedSeats(c, config, c.gate.id, c.gate.purpose, c.gate.verdict.value);
    }
  }

  lemma ResumeChange(c: Client, config: Config)
    requires Seats(c, config) && (c.gate.Free? || c.gate.Admitting? || c.gate.Acking?)
    ensures Seats(Resume(c), config)
  {
    if c.gate.Admitting? && c.gate.stored.Some? {
      PublishedSeats(c, config, c.gate.message, c.gate.generation, c.gate.stored.value);
    } else if c.gate.Acking? && c.gate.committed {
      ReleasedSeats(c, config, c.gate.id, c.gate.generation, c.gate.code);
    } else {
      assert Resume(c) == c;
    }
  }

  lemma ConnectSeats(c: Client, config: Config)
    requires Seats(c, config)
    ensures Seats(ClientStep(c, config, Connected), config)
  {
  }

  lemma ReplaySession(c: Client, d: Client, config: Config)
    requires SessionOk(c, config) && Replayed(c, d)
    ensures SessionOk(d, config)
  {
    assert forall x :: x in d.todo ==> x in c.todo;
    assert c.todo[0] in c.todo;
  }

  lemma ReplaySeats(c: Client, config: Config)
    requires Seats(c, config)
    ensures Seats(ClientStep(c, config, Replaying), config)
  {
    var d := ReplayNext(c);
    if d != c {
      ReplayIs(c);
      ReplaySession(c, d, config);
      ReplayedSeats(c, d, config);
    }
  }

  predicate Replayed(c: Client, d: Client) {
    && c.session.alive && !c.ready && c.todo != [] && c.gate.Free?
    && d == c.(todo := c.todo[1..], gate := d.gate)
    && (d.gate.Free? || (c.todo[0] in c.active && d.gate == Checking(c.todo[0], ForReplay(c.session.generation), None)))
  }

  lemma ReplayIs(c: Client)
    ensures ReplayNext(c) == c || Replayed(c, ReplayNext(c))
  {
  }

  lemma ReplayedSeats(c: Client, d: Client, config: Config)
    requires Seats(c, config) && Replayed(c, d) && SessionOk(d, config)
    ensures Seats(d, config)
  {
    assert SameIds(c, d);
    SameBook(c, d);
  }

  lemma SettleSeats(c: Client, config: Config)
    requires Seats(c, config)
    ensures Seats(ClientStep(c, config, Settling), config)
  {
  }

  lemma ReadySeats(c: Client, config: Config)
    requires Seats(c, config)
    ensures Seats(ClientStep(c, config, Restored), config)
  {
  }

  lemma PendingSession(c: Client, d: Client, config: Config, pending: set<int>)
    requires SessionOk(c, config) && d == c.(session := c.session.(pending := pending))
    requires forall x :: x in pending ==> x == 0 || x in c.session.pending
    requires 0 in pending ==> 0 in c.session.pending || c.ready
    requires (forall id :: id in c.active ==> c.active[id].packetId != 0)
        && (c.gate.Admitting? ==> c.gate.message.packetId != 0)
    ensures SessionOk(d, config)
  {
    forall x | x in pending - {0} ensures x in c.session.pending - {0} {
    }
    SubsetSize(pending - {0}, c.session.pending - {0});
    if !c.ready {
      assert forall x :: x !in pending;
      assert pending == {};
    }
  }

  /** Dropping a request, or adding the DISCONNECT slot. */
  lemma FewerPending(c: Client, d: Client, config: Config, pending: set<int>)
    requires Seats(c, config) && d == c.(session := c.session.(pending := pending))
    requires forall x :: x in pending ==> x == 0 || x in c.session.pending
    requires 0 in pending ==> 0 in c.session.pending || (c.session.alive && c.ready)
    ensures Seats(d, config)
  {
    if c.session.alive {
      PendingSession(c, d, config, pending);
    } else {
      assert forall x :: x !in pending;
      assert pending == {};
    }
  }

  lemma PendingSeats(c: Client, config: Config, packetId: int)
    requires Seats(c, config)
    ensures Seats(c.(session := c.session.(pending := c.session.pending - {packetId})), config)
    ensures c.session.alive && c.ready ==> Seats(c.(session := c.session.(pending := c.session.pending + {0})), config)
  {
    var less, more := c.session.pending - {packetId}, c.session.pending + {0};
    FewerPending(c, c.(session := c.session.(pending := less)), config, less);
    if c.session.alive && c.ready {
      FewerPending(c, c.(session := c.session.(pending := more)), config, more);
    }
  }

  lemma QueueSeats(c: Client, config: Config, queue: set<string>, writer: Writer)
    requires Seats(c, config)
    ensures Seats(c.(session := c.session.(queue := queue), writer := writer), config)
  {
    assert c.session.alive ==> SessionOk(c.(session := c.session.(queue := queue), writer := writer), config);
  }

  lemma ItemSeats(c: Client, config: Config, id: string)
    requires Seats(c, config)
    ensures Seats(TakeItem(c, id), config)
  {
    QueueSeats(c, config, c.session.queue - {id}, TakeItem(c, id).writer);
  }

  lemma CancelSeats(c: Client, config: Config)
    requires Seats(c, config)
    ensures Seats(CancelWrite(c), config)
  {
    QueueSeats(c, config, c.session.queue, CancelWrite(c).writer);
  }

  lemma GateSeats(c: Client, config: Config, gate: Gate)
    requires Seats(c, config) && c.gate.Free? && c.session.alive
    requires gate.Acking? || (gate.Checking? && gate.purpose.ForWatch?)
    requires gate.id in c.session.deliveries
    ensures Seats(c.(gate := gate), config)
  {
    assert SessionOk(c.(gate := gate), config);
  }

  lemma PubackSeats(c: Client, config: Config, id: string, code: int)
    requires Seats(c, config)
    ensures Seats(TakePuback(c, id, code), config)
  {
    if TakePuback(c, id, code) != c {
      GateSeats(c, config, Acking(id, c.session.generation, code, false));
    }
  }

  lemma WatchSeats(c: Client, config: Config, id: string, now: int)
    requires Seats(c, config)
    ensures Seats(Watch(c, id, now), config)
  {
    if Watch(c, id, now) != c {
      GateSeats(c, config, Checking(id, ForWatch, None));
    }
  }

  lemma WriterSeats(c: Client, config: Config)
    requires Seats(c, config)
    requires c.writer.Waiting? && c.gate.Free? ==> c.writer.id in c.active
    ensures Seats(EnterWrite(c), config)
  {
  }

  /** Steps of the supervisor and of ordinary requests. */
  predicate Outer(input: Input) {
    || input.Ordinary? || input.Completed? || input.Disconnecting? || input.Lost? || input.Stopping?
    || input.Connected? || input.Replaying? || input.Restored? || input.Settling?
  }

  lemma OuterSeats(c: Client, config: Config, input: Input)
    requires Reservations(c) && Seats(c, config) && Outer(input)
    ensures Seats(ClientStep(c, config, input), config)
  {
    if input.Ordinary? {
      RequestSeats(c, config);
      assert ClientStep(c, config, input) == Request(c, config);
    } else if input.Completed? || input.Disconnecting? {
      AccountSeats(c, config, input);
    } else if input.Lost? || input.Stopping? {
      AbortSeats(c, config);
    } else {
      SupervisorSeats(c, config, input);
    }
  }

  lemma AccountSeats(c: Client, config: Config, input: Input)
    requires Seats(c, config) && (input.Completed? || input.Disconnecting?)
    ensures Seats(ClientStep(c, config, input), config)
  {
    PendingSeats(c, config, if input.Completed? then input.packetId else 0);
  }

  lemma SupervisorSeats(c: Client, config: Config, input: Input)
    requires Seats(c, config) && (input.Connected? || input.Replaying? || input.Restored? || input.Settling?)
    ensures Seats(ClientStep(c, config, input), config)
  {
    match input {
      case Connected => ConnectSeats(c, config);
      case Replaying => ReplaySeats(c, config);
      case Restored => ReadySeats(c, config);
      case Settling => SettleSeats(c, config);
    }
  }

  /** Every step of a running client keeps the seats. */
  lemma StepSeats(c: Client, config: Config, input: Input)
    requires Reservations(c) && Seats(c, config)
    requires c.writer.Waiting? && c.gate.Free? ==> c.writer.id in c.active
    ensures Seats(ClientStep(c, config, input), config)
  {
    if Outer(input) {
      OuterSeats(c, config, input);
    } else {
      match input {
        case Admission(id, topic, payload, expires, now) => AdmitSeats(c, config, id, topic, payload, expires, now);
        case Refused => RefuseSeats(c, config);
        case Resumed => ResumeSeats(c, config);
        case Item(id) => ItemSeats(c, config, id);
        case Cancelled => CancelSeats(c, config);
        case Acknowledgement(id, code) => PubackSeats(c, config, id, code);
        case Watchdog(id, now) => WatchSeats(c, config, id, now);
        case Enter => WriterSeats(c, config);
        case _ =>
      }
    }
  }
}
