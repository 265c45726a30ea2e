/**
 The durable QoS 1 client as a state machine (`submit_durable_delivery` and
 `with_durable_client` in `client.mbt`, `write_one` and `expire_durable_delivery` in
 `session.mbt`, replay and PUBACK handling in `runtime.mbt`, the outbox in
 `durable_store.mbt`). A step is one stretch of code between two suspension points,
 or one committed store transaction, so the steps of the gate holder, the writer,
 the reader, the supervisor and ordinary requests interleave freely, and the process
 may die between any two of them.
 */
module DurableMachine {
  import opened Optional
  import opened DeliveryRecords
  import opened PacketIds

  datatype Config = Config(maxInflight: nat, maxRecords: nat)

  /** What one admission asks the broker to receive. */
  datatype Message = Message(id: string, packetId: int, topic: string, payload: seq<int>, expires: int)

  // ---------- the store ----------

  datatype Row = Row(message: Message, sequence: nat, attempts: nat, started: bool, blocked: bool)

  datatype Store = Store(rows: map<string, Row>, next: nat)

  predicate Accepts(config: Config, rows: map<string, Row>, m: Message) {
    |rows| < config.maxRecords && m.id !in rows && forall id :: id in rows ==> rows[id].message.packetId != m.packetId
  }

  datatype Expiry = StillPending | Removed | Blocked

  function ExpiryOf(row: Row, now: int): Expiry {
    if row.message.expires > now then StillPending else if row.started then Blocked else Removed
  }

  /** The store after the expiry verdict on one row. */
  function AfterExpiry(rows: map<string, Row>, id: string, verdict: Expiry): map<string, Row>
    requires id in rows
  {
    match verdict
    case StillPending => rows
    case Removed => rows - {id}
    case Blocked => rows[id := rows[id].(blocked := true)]
  }

  predicate Swept(row: Row, now: int) { !row.blocked && row.message.expires <= now }

  /** The sweep on opening: expired rows go, or are quarantined once possibly written. */
  function ExpireAll(rows: map<string, Row>, now: int): map<string, Row> {
    map id | id in rows && !(Swept(rows[id], now) && !rows[id].started) ::
      if Swept(rows[id], now) then rows[id].(blocked := true) else rows[id]
  }

  /** `ORDER BY sequence`: the delivery ids of the rows below `bound`, oldest first. */
  ghost function InOrder(rows: map<string, Row>, bound: nat): (ids: seq<string>)
    ensures forall id :: id in ids ==> id in rows && rows[id].sequence < bound
  {
    if bound == 0 then []
    else if id :| id in rows && rows[id].sequence == bound - 1 then InOrder(rows, bound - 1) + [id]
    else InOrder(rows, bound - 1)
  }

  // ---------- the process ----------

  datatype Handle = Handle(sequence: nat, packetId: int, expires: int, state: RecordState)

  datatype Session = Session(
    generation: nat, alive: bool, pending: set<int>, nextId: int, slots: nat, deliveries: set<string>,
        queue: set<string>)

  datatype Purpose = ForReplay(generation: nat) | ForWrite | ForWatch | LastLook(now: int)

  /** Who holds the durable gate, and how far its current store operation is. */
  datatype Gate =
    | Free
    | Admitting(message: Message, generation: nat, stored: Option<nat>)   // INSERT
    | Joining(id: string, generation: nat, committed: bool)               // record_attach of an admission
    | Checking(id: string, purpose: Purpose, verdict: Option<Expiry>)     // expire_one
    | Reattaching(id: string, generation: nat, committed: bool)           // record_attach of a replay
    | Marking(id: string, committed: bool)                                // record_may_write
    | Acking(id: string, generation: nat, code: int, committed: bool)     // DELETE

  /** The one writer task: it snapshots DUP before it queues for the gate. */
  datatype Writer =
    | Resting
    | Waiting(id: string, sequence: nat, generation: nat, dup: bool)
    | Cleared(id: string, sequence: nat, generation: nat, dup: bool)

  datatype Client = Client(
    active: map<string, Handle>, reserved: map<int, string>, order: seq<string>, cursor: int, gate: Gate,
    writer: Writer, session: Session,
    ready: bool, todo: seq<string>, stopped: bool, settled: bool, finished: set<Handle>)

  datatype Sent = Sent(sequence: nat, message: Message, dup: bool)

  /** Everything, with its history: committed admissions, packets on the wire, committed acknowledgements. */
  datatype System = System(store: Store, client: Option<Client>, log: map<nat, Message>, wire: seq<Sent>,
      acked: set<nat>)

  /** The packet id of an admission that is not yet a delivery. */
  function Provisional(gate: Gate): set<int> { if gate.Admitting? then {gate.message.packetId} else {} }

  // ---------- teardown ----------

  function DetachAll(active: map<string, Handle>, attached: set<string>, generation: nat): map<string, Handle> {
    map id | id in active ::
      if id in attached then active[id].(state := Detached(active[id].state, generation, "connection ended"))
          else active[id]
  }

  /** The generation ends: nothing stays pending, attached or queued. */
  function Aborted(c: Client): Client {
    if !c.session.alive then c
    else c.(active := DetachAll(c.active, c.session.deliveries, c.session.generation),
            session := c.session.(alive := false, pending := {}, slots := 0, deliveries := {}, queue := {}))
  }

  function Stopped(c: Client): Client { Aborted(c).(stopped := true, ready := false) }

  /** The provisional slot goes back, if its generation still lives. */
  function SlotBack(s: Session, generation: nat): Session {
    if s.generation == generation && s.alive && s.slots > 0 then s.(slots := s.slots - 1) else s
  }

  function Terminated(c: Client, id: string, writer: Writer): Client
    requires id in c.active
  {
    var state := FinishedTerminal(c.active[id].state, "durable delivery expired", DeliveryRejected);
    c.(active := c.active[id := c.active[id].(state := state)], gate := Free, writer := writer)
  }

  /** A delivery that expired or was quarantined ends, and takes its generation along. */
  function Ended(c: Client, id: string, purpose: Purpose): Client
    requires id in c.active
  {
    Aborted(Terminated(c, id, if purpose.ForWrite? || purpose.LastLook? then Resting else c.writer))
  }

  // ---------- the gate holder ----------

  /** Before the first suspension: packet id and inflight slot are taken. */
  function Admit(c: Client, config: Config, id: string, topic: string, payload: seq<int>, expires: int,
      now: int): Client {
    if !(c.gate.Free? && !c.stopped && c.ready && c.session.alive && now < expires) then c
    else if id in c.active || |c.active| + |c.session.pending| >= config.maxInflight then c
    else
      Assigned(c, Allocate(c.cursor, c.reserved.Keys + c.session.pending), id, topic, payload, expires)
  }

  function Assigned(c: Client, call: Call, id: string, topic: string, payload: seq<int>, expires: int): Client {
    if call.id.None? then c.(cursor := call.cursor)
    else c.(cursor := call.cursor, reserved := c.reserved[call.id.value := id],
            session := c.session.(slots := c.session.slots + 1),
            gate := Admitting(Message(id, call.id.value, topic, payload, expires), c.session.generation, None))
  }

  /** The store commits the pending operation. A failing operation changes nothing: it leaves through `Refuse`. */
  function Commit(s: System, config: Config, now: int, messageExpired: bool): System
    requires s.client.Some?
  {
    var c := s.client.value;
    var rows := s.store.rows;
    match c.gate
    case Admitting(m, g, None) =>
      if !Accepts(config, rows, m) then s
      else s.(store := Store(rows[m.id := Row(m, s.store.next, 0, false, false)], s.store.next + 1),
              log := s.log[s.store.next := m], client := Some(c.(gate := Admitting(m, g, Some(s.store.next)))))
    case Joining(id, g, false) =>
      if id !in rows || rows[id].blocked then s
      else s.(store := s.store.(rows := rows[id := rows[id].(attempts := rows[id].attempts + 1)]),
              client := Some(c.(gate := Joining(id, g, true))))
    case Reattaching(id, g, false) =>
      if id !in rows || rows[id].blocked then s
      else s.(store := s.store.(rows := rows[id := rows[id].(attempts := rows[id].attempts + 1)]),
              client := Some(c.(gate := Reattaching(id, g, true))))
    case Checking(id, purpose, None) =>
      if id !in rows || rows[id].blocked then s
      else
        var verdict :=
          if messageExpired && (purpose.ForReplay? || purpose.ForWrite?) then Blocked
          else ExpiryOf(rows[id], if purpose.LastLook? then purpose.now else now);
        s.(store := s.store.(rows := AfterExpiry(rows, id, verdict)),
           client := Some(c.(gate := Checking(id, purpose, Some(verdict)))))
    case Marking(id, false) =>
      if id !in rows || rows[id].blocked then s
      else s.(store := s.store.(rows := rows[id := rows[id].(started := true)]),
          client := Some(c.(gate := Marking(id, true))))
    case Acking(id, g, code, false) =>
      if id !in rows then s
      else s.(store := s.store.(rows := rows - {id}), acked := s.acked + {rows[id].sequence},
              client := Some(c.(gate := Acking(id, g, code, true))))
    case _ => s
  }

  predicate Uncommitted(gate: Gate) {
    match gate
    case Free => false
    case Admitting(_, _, stored) => stored.None?
    case Checking(_, _, verdict) => verdict.None?
    case Joining(_, _, committed) => !committed
    case Reattaching(_, _, committed) => !committed
    case Marking(_, committed) => !committed
    case Acking(_, _, _, committed) => !committed
  }

  /** The writer holds the gate. */
  predicate AtGate(c: Client) {
    c.gate.Marking? || (c.gate.Checking? && (c.gate.purpose.ForWrite? || c.gate.purpose.LastLook?))
  }

  /**
   The store operation raises: provisional ownership is undone. A failed admission stops
   the client; any other failure ends the generation, and the supervisor may reconnect
   or stop.
   */
  function Refuse(c: Client): Client {
    if !Uncommitted(c.gate) then c
    else if c.gate.Admitting? || c.gate.Joining? then Stopped(Withdrawn(c))
    else Aborted(Withdrawn(c))
  }

  /** The undo: slot and, for an admission not yet stored, packet id. */
  function Withdrawn(c: Client): Client {
    c.(gate := Free, reserved := c.reserved - Provisional(c.gate),
       session := if c.gate.Admitting? || c.gate.Joining? then SlotBack(c.session, c.gate.generation) else c.session,
       writer := if AtGate(c) then Resting else c.writer)
  }

  function AttachTo(c: Client, id: string, generation: nat, slots: nat): Client
    requires id in c.active
  {
    var active := c.active[id := c.active[id].(state := Attached(c.active[id].state, generation, 0))];
    var session := c.session;
    if session.generation == generation && session.alive
    then c.(active := active, gate := Free,
            session := session.(slots := slots, deliveries := session.deliveries + {id}, queue := session.queue + {id}))
    else c.(active := active, gate := Free)
  }

  function MarkedStarted(c: Client, id: string): Client
    requires id in c.active
  {
    var active := c.active[id := c.active[id].(state := Started(c.active[id].state))];
    var writer := match c.writer
      case Waiting(wid, sequence, g, dup) => Cleared(wid, sequence, g, dup)
      case other => other;
    c.(active := active, gate := Free, writer := writer)
  }

  function Without(order: seq<string>, id: string): seq<string> {
    if order == [] then [] else if order[0] == id then order[1..] else [order[0]] + Without(order[1..], id)
  }

  /** The handle of a committed admission. */
  function Admitted(m: Message, sequence: nat): Handle {
    Handle(sequence, m.packetId, m.expires, Fresh(m.topic, m.payload))
  }

  function Parked(h: Handle): Handle {
    h.(state := h.state.(phase := AwaitingReconnect("connection changed after durable admission")))
  }

  function Inserted(c: Client, id: string, h: Handle, gate: Gate, session: Session): Client {
    c.(active := c.active[id := h], order := c.order + [id], gate := gate, session := session)
  }

  /** The admission is committed: the handle joins the book, and the provisional slot stays or goes back. */
  function Published(c: Client, m: Message, generation: nat, sequence: nat): Client {
    if c.ready && c.session.alive && c.session.generation == generation
    then Inserted(c, m.id, Admitted(m, sequence), Joining(m.id, generation, false), c.session)
    else Inserted(c, m.id, Parked(Admitted(m, sequence)), Free, SlotBack(c.session, generation))
  }

  /** The row is deleted: slot, packet id and handle are released together. */
  function Released(c: Client, id: string, code: int): Client
    requires id in c.active
  {
    var h := c.active[id];
    var state := if code < 128 then FinishedAcknowledged(h.state, Some(code)) else FinishedRejected(h.state, code);
    var session := c.session.(deliveries := c.session.deliveries - {id},
                              slots := if c.session.slots > 0 then c.session.slots - 1 else 0);
    c.(active := c.active - {id}, reserved := c.reserved - {h.packetId}, order := Without(c.order, id),
       session := session, gate := Free,
       finished := c.finished + {h.(state := state)})
  }

  /** After the expiry verdict. */
  function Checked(c: Client, id: string, purpose: Purpose, verdict: Expiry): Client
    requires id in c.active
  {
    if !verdict.StillPending? || purpose.LastLook? then Ended(c, id, purpose)
    else
      match purpose
      case ForReplay(g) => c.(gate := Reattaching(id, g, false))
      case ForWatch => c.(gate := Free)
      case _ => if c.active[id].state.everStarted then MarkedStarted(c, id) else c.(gate := Marking(id, false))
  }

  /** The code after a committed store operation, up to the next suspension. */
  function Resume(c: Client): Client {
    match c.gate
    case Admitting(m, g, Some(sequence)) => Published(c, m, g, sequence)
    case Joining(id, g, true) => if id !in c.active then c else AttachTo(c, id, g, c.session.slots)
    case Reattaching(id, g, true) => if id !in c.active then c else AttachTo(c, id, g, c.session.slots + 1)
    case Checking(id, purpose, Some(verdict)) => if id !in c.active then c else Checked(c, id, purpose, verdict)
    case Marking(id, true) => if id !in c.active then c else MarkedStarted(c, id)
    case Acking(id, _, code, true) => if id !in c.active then c else Released(c, id, code)
    case _ => c
  }

  // ---------- writer, reader, watchdog ----------

  predicate Owns(c: Client, id: string) {
    id in c.active && !Terminal(c.active[id].state.phase) && c.active[id].state.generation == Some(c.session.generation)
  }

  /** The writer takes a queued item and snapshots DUP. */
  function TakeItem(c: Client, id: string): Client {
    if !(c.session.alive && c.writer.Resting? && id in c.session.queue) then c
    else
      var d := c.(session := c.session.(queue := c.session.queue - {id}));
      if !Owns(c, id) then d
      else d.(writer := Waiting(id, c.active[id].sequence, c.session.generation, c.active[id].state.everStarted))
  }

  function EnterWrite(c: Client): Client {
    if c.gate.Free? && c.writer.Waiting? then c.(gate := Checking(c.writer.id, ForWrite, None)) else c
  }

  /** Cancellation reaches a writer of an ended generation that still queues for the gate. */
  function CancelWrite(c: Client): Client {
    if !c.session.alive && c.writer.Waiting? && !AtGate(c) then c.(writer := Resting) else c
  }

  predicate MayWrite(c: Client) {
    && c.writer.Cleared? && c.session.alive && c.session.generation == c.writer.generation
    && Owns(c, c.writer.id) && c.active[c.writer.id].sequence == c.writer.sequence
  }

  /** After the last commit: recheck ownership and expiry, then write. */
  function WriteOut(s: System, now: int): System
    requires s.client.Some?
  {
    var c := s.client.value;
    if !c.writer.Cleared? || AtGate(c) then s
    else if !MayWrite(c) then s.(client := Some(c.(writer := Resting)))
    else
      var h := c.active[c.writer.id];
      if now >= h.expires then
        if c.gate.Free? then s.(client := Some(c.(gate := Checking(c.writer.id, LastLook(now), None)))) else s
      else if h.state.topic.None? || h.state.payload.None? then s.(client := Some(Aborted(c).(writer := Resting)))
      else
        var message := Message(c.writer.id, h.packetId, h.state.topic.value, h.state.payload.value, h.expires);
        s.(wire := s.wire + [Sent(c.writer.sequence, message, c.writer.dup)], client := Some(c.(writer := Resting)))
  }

  function TakePuback(c: Client, id: string, code: int): Client {
    if && c.gate.Free? && c.session.alive && id in c.session.deliveries
       && Owns(c, id) && c.active[id].state.phase.AwaitingAck?
    then c.(gate := Acking(id, c.session.generation, code, false)) else c
  }

  function Watch(c: Client, id: string, now: int): Client {
    if c.gate.Free? && c.session.alive && id in c.session.deliveries && Owns(c, id) && now >= c.active[id].expires
    then c.(gate := Checking(id, ForWatch, None)) else c
  }

  // ---------- ordinary requests ----------

  function Request(c: Client, config: Config): Client {
    if c.stopped || !c.ready || !c.session.alive || |c.session.pending| + c.session.slots >= config.maxInflight then c
    else Granted(c, Allocate(c.session.nextId, c.session.pending + c.reserved.Keys))
  }

  function Granted(c: Client, call: Call): Client {
    if call.id.None? then c.(session := c.session.(nextId := call.cursor))
    else c.(session := c.session.(nextId := call.cursor, pending := c.session.pending + {call.id.value}))
  }

  // ---------- the supervisor ----------

  /** A new generation, once the tasks of the last one have been joined. */
  function Connect(c: Client): Client {
    if || c.stopped || c.session.alive || !c.writer.Resting?
       || !(c.gate.Free? || c.gate.Admitting? || c.gate.Joining?) then c
    else c.(session := Session(c.session.generation + 1, true, {}, 1, 0, {}, {}), ready := false, todo := c.order)
  }

  function ReplayNext(c: Client): Client {
    if !(c.session.alive && !c.ready && c.gate.Free? && c.todo != []) then c
    else
      var d := c.(todo := c.todo[1..]);
      if c.todo[0] !in c.active || Terminal(c.active[c.todo[0]].state.phase) then d
      else d.(gate := Checking(c.todo[0], ForReplay(c.session.generation), None))
  }

  predicate ReplayAtGate(c: Client) { c.gate.Reattaching? || (c.gate.Checking? && c.gate.purpose.ForReplay?) }

  function Ready(c: Client): Client {
    if c.session.alive && !c.stopped && c.todo == [] && !ReplayAtGate(c) then c.(ready := true) else c
  }

  /** Quarantine of one pending row by a terminal stop. */
  function BlockRow(s: System, id: string): System
    requires s.client.Some?
  {
    var c := s.client.value;
    if c.stopped && c.gate.Free? && id in c.active && !Terminal(c.active[id].state.phase) && id in s.store.rows
    then s.(store := s.store.(rows := s.store.rows[id := s.store.rows[id].(blocked := true)])) else s
  }

  /** Shutdown ends every handle and empties the book. */
  function Settle(c: Client): Client {
    if !(c.stopped && c.gate.Free? && c.writer.Resting?) then c
    else c.(active := map[], reserved := map[], order := [], settled := true,
            finished := c.finished + set id | id in c.active ::
              c.active[id].(state := FinishedTerminal(c.active[id].state, "closed", Closed)))
  }

  // ---------- opening ----------

  function Recovered(row: Row): Handle {
    var m := row.message;
    Handle(row.sequence, m.packetId, m.expires,
           RecordState(Some(m.topic), Some(m.payload), AwaitingReconnect("recovered from durable outbox"), row.attempts,
                       None, row.started, None, None, None, None))
  }

  datatype Records = Records(active: map<string, Handle>, reserved: map<int, string>)

  /** The rebuild loop: one handle a row, refused when an identifier repeats. */
  function Rebuild(rows: map<string, Row>, ids: seq<string>): Option<Records>
    requires forall id :: id in ids ==> id in rows
    decreases |ids|
  {
    if ids == [] then Some(Records(map[], map[]))
    else
      var k := |ids| - 1;
      match Rebuild(rows, ids[..k])
      case None => None
      case Some(book) =>
        var row := rows[ids[k]];
        if ids[k] in book.active || row.message.packetId in book.reserved then None
        else Some(Records(book.active[ids[k] := Recovered(row)], book.reserved[row.message.packetId := ids[k]]))
  }

  /** A freshly opened client: no connection, nothing in flight. */
  function Opened(book: Records, ids: seq<string>): Client {
    Client(book.active, book.reserved, ids, 1, Free, Resting, Session(0, false, {}, 1, 0, {}, {}), false, [], false,
           false, {})
  }

  ghost function Open(s: System, config: Config, now: int): System {
    if s.client.Some? then s
    else
      var rows := ExpireAll(s.store.rows, now);
      var t := s.(store := s.store.(rows := rows));
      if |rows| > config.maxInflight || exists id :: id in rows && rows[id].blocked then t
      else
        var ids := InOrder(rows, s.store.next);
        match Rebuild(rows, ids)
        case None => t
        case Some(book) => t.(client := Some(Opened(book, ids)))
  }

  // ---------- one step, and runs ----------

  datatype Input =
    | Admission(id: string, topic: string, payload: seq<int>, expires: int, now: int)
    | Committed(now: int, messageExpired: bool)
    | Refused
    | Resumed
    | Item(id: string) | Enter | Cancelled | Written(now: int)
    | Acknowledgement(id: string, code: int)
    | Watchdog(id: string, now: int)
    | Ordinary | Completed(packetId: int) | Disconnecting
    | Lost | Connected | Replaying | Restored | Stopping | Blocking(id: string) | Settling
    | Exit                                       // a crash, or a normal exit
    | Opening(now: int)

  function ClientStep(c: Client, config: Config, input: Input): Client {
    match input
    case Admission(id, topic, payload, expires, now) => Admit(c, config, id, topic, payload, expires, now)
    case Refused => Refuse(c)
    case Resumed => Resume(c)
    case Item(id) => TakeItem(c, id)
    case Enter => EnterWrite(c)
    case Cancelled => CancelWrite(c)
    case Acknowledgement(id, code) => TakePuback(c, id, code)
    case Watchdog(id, now) => Watch(c, id, now)
    case Ordinary => Request(c, config)
    case Completed(packetId) => c.(session := c.session.(pending := c.session.pending - {packetId}))
    case Disconnecting =>
      if c.session.alive && c.ready then c.(session := c.session.(pending := c.session.pending + {0})) else c
    case Lost => Aborted(c)
    case Connected => Connect(c)
    case Replaying => ReplayNext(c)
    case Restored => Ready(c)
    case Stopping => Stopped(c)
    case Settling => Settle(c)
    case _ => c
  }

  ghost function Step(s: System, config: Config, input: Input): System {
    if input.Opening? then Open(s, config, input.now)
    else if s.client.None? then s
    else
      match input
      case Exit => s.(client := None)
      case _ => if s.client.value.settled then s else LiveStep(s, config, input)
  }

  function LiveStep(s: System, config: Config, input: Input): System
    requires s.client.Some?
  {
    match input
    case Committed(now, messageExpired) => Commit(s, config, now, messageExpired)
    case Written(now) => WriteOut(s, now)
    case Blocking(id) => BlockRow(s, id)
    case _ => s.(client := Some(ClientStep(s.client.value, config, input)))
  }

  ghost function Run(s: System, config: Config, inputs: seq<Input>): System
    decreases |inputs|
  {
    if inputs == [] then s else Run(Step(s, config, inputs[0]), config, inputs[1..])
  }

  function Empty(): System { System(Store(map[], 1), None, map[], [], {}) }
}
