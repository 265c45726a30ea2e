/**
 Opening a durable outbox again: the rows that survive are rebuilt into handles in
 admission order, with the same packet ids and content, and DUP set exactly for what
 may already have been sent.
 */
module DurableReopening {
  import opened Optional
  import opened DeliveryRecords
  import opened PacketIds
  import opened DurableMachine
  import opened DurableReservations
  import opened DurableCapacity
  import opened DurableLedger
  import opened DurableStore

  /** Expiry on opening removes only rows that were never possibly written. */
  lemma SweepKeeps(s: System, t: System, now: int)
    requires StoreOk(s) && t == s.(store := s.store.(rows := ExpireAll(s.store.rows, now)))
    ensures StoreOk(t) && Extends(s, t)
  {
    forall k | Covered(s, k) ensures Covered(t, k) {
      if k !in s.acked {
        var x :| x in s.store.rows && s.store.rows[x].sequence == k && s.store.rows[x].started;
        assert x in t.store.rows && t.store.rows[x].sequence == k && t.store.rows[x].started;
      }
    }
    ExtendsHistory(s, t);
  }

  /** `ORDER BY sequence` lists every row below the bound once, oldest first. */
  lemma {:induction false} InOrderLists(s: System, bound: nat)
    requires Rows(s)
    ensures var ids := InOrder(s.store.rows, bound);
            && (forall id :: id in s.store.rows && s.store.rows[id].sequence < bound ==> id in ids)
            && (forall i, j :: 0 <= i < j < |ids| ==> s.store.rows[ids[i]].sequence < s.store.rows[ids[j]].sequence)
  {
    if bound > 0 {
      var rows := s.store.rows;
      InOrderLists(s, bound - 1);
      var ids, before := InOrder(rows, bound), InOrder(rows, bound - 1);
      forall id | id in rows && rows[id].sequence == bound - 1 ensures id in ids {
        var last := ids[|ids| - 1];
        assert ids == before + [last] && rows[last].sequence == bound - 1;
        SequenceOnce(s, id, last);
      }
      assert forall id :: id in before ==> id in ids;
      forall i, j | 0 <= i < j < |ids| ensures rows[ids[i]].sequence < rows[ids[j]].sequence {
        assert ids[i] in ids[..|before|] ==> i < |before|;
        if j < |before| {
          assert ids[i] == before[i] && ids[j] == before[j];
        } else {
          assert before[i] in before;
        }
      }
    }
  }

  /** The rebuild loop meets no duplicate and makes one handle for each listed row. */
  lemma {:induction false} RebuildSucceeds(s: System, ids: seq<string>)
    requires Rows(s) && NoRepeats(ids) && forall id :: id in ids ==> id in s.store.rows
    ensures var built := Rebuild(s.store.rows, ids);
            built.Some? && BookOf(s.store.rows, ids, built.value)
    decreases |ids|
  {
    if ids != [] {
      var rows, k := s.store.rows, |ids| - 1;
      LastOnce(ids);
      RebuildSucceeds(s, ids[..k]);
      RebuildMore(s, ids[..k], ids[k], Rebuild(rows, ids[..k]).value);
      assert ids == ids[..k] + [ids[k]];
    }
  }

  /** One recovered handle for each listed row, and their packet ids reserved. */
  ghost predicate BookOf(rows: map<string, Row>, ids: seq<string>, book: Records)
    requires forall id :: id in ids ==> id in rows
  {
    && (forall id :: id in book.active <==> id in ids)
    && (forall id :: id in ids ==> book.active[id] == Recovered(rows[id]))
    && Reserves(book.active, book.reserved, Free)
  }

  lemma LastOnce(ids: seq<string>)
    requires ids != [] && NoRepeats(ids)
    ensures var k := |ids| - 1;
            NoRepeats(ids[..k]) && ids[k] !in ids[..k] && ids[k] in ids && forall id :: id in ids[..k] ==> id in ids
  {
  }

  lemma RebuildMore(s: System, rest: seq<string>, id: string, book: Records)
    requires Rows(s) && id in s.store.rows && id !in rest && forall x :: x in rest ==> x in s.store.rows
    requires BookOf(s.store.rows, rest, book)
    ensures var row := s.store.rows[id];
            && id !in book.active && row.message.packetId !in book.reserved
            && (forall x :: x in rest + [id] ==> x in s.store.rows)
            && BookOf(s.store.rows, rest + [id],
                Records(book.active[id := Recovered(row)], book.reserved[row.message.packetId := id]))
  {
    var row := s.store.rows[id];
    forall p | p in book.reserved ensures p != row.message.packetId {
      assert book.reserved[p] in rest && book.reserved[p] != id;
    }
  }

  ghost predicate Openable(rows: map<string, Row>, config: Config) {
    |rows| <= config.maxInflight && forall id :: id in rows ==> !rows[id].blocked
  }

  /** The process that a store opens into. */
  ghost predicate Rebuilt(s: System, c: Client) {
    && c.active.Keys == s.store.rows.Keys
    && (forall id :: id in s.store.rows ==> c.active[id] == Recovered(s.store.rows[id]))
    && NoRepeats(c.order) && (forall id :: id in c.order <==> id in c.active)
    && Ordered(c)
    && Reservations(c)
    && (forall a, b :: a in c.active && b in c.active && a != b ==> c.active[a].packetId != c.active[b].packetId)
    && c.gate.Free? && c.writer.Resting? && !c.settled && c.finished == {} && !c.stopped && !c.ready
    && IsId(c.cursor) && c.session == Session(0, false, {}, 1, 0, {}, {})
  }

  /**
   Opening succeeds exactly when no row is, or by expiry becomes, blocked and the
   rows fit the inflight bound; the duplicate check in the rebuild loop never fires.
   */
  lemma OpensExactlyWhen(s: System, config: Config, now: int)
    requires StoreOk(s) && s.client.None?
    ensures var t := Open(s, config, now);
            && StoreOk(t) && Extends(s, t)
            && t.store == s.store.(rows := ExpireAll(s.store.rows, now)) && t.acked == s.acked && t.log == s.log
            && (t.client.Some? <==> Openable(ExpireAll(s.store.rows, now), config))
            && (t.client.Some? ==> Rebuilt(t, t.client.value))
  {
    var swept := s.(store := s.store.(rows := ExpireAll(s.store.rows, now)));
    SweepKeeps(s, swept, now);
    if Openable(swept.store.rows, config) {
      OpensInto(s, config, now, swept);
    } else {
      assert Open(s, config, now) == swept;
    }
  }

  lemma OpensInto(s: System, config: Config, now: int, swept: System)
    requires StoreOk(swept) && Extends(s, swept) && s.client.None? && Openable(swept.store.rows, config)
    requires swept == s.(store := s.store.(rows := ExpireAll(s.store.rows, now)))
    ensures var t := Open(s, config, now);
            StoreOk(t) && Extends(s, t) && t.client.Some? && t == swept.(client := t.client)
                && Rebuilt(t, t.client.value)
  {
    var rows, ids := swept.store.rows, InOrder(swept.store.rows, s.store.next);
    AllInOrder(swept);
    RebuildSucceeds(swept, ids);
    var c := Opened(Rebuild(rows, ids).value, ids);
    OpenIs(s, config, now, swept, c);
    SweptTo(s, swept, swept.(client := Some(c)));
    RebuiltFrom(swept.(client := Some(c)), c);
  }

  lemma OpenIs(s: System, config: Config, now: int, swept: System, c: Client)
    requires s.client.None? && Openable(swept.store.rows, config)
    requires swept == s.(store := s.store.(rows := ExpireAll(s.store.rows, now)))
    requires var ids := InOrder(swept.store.rows, s.store.next);
             Rebuild(swept.store.rows, ids).Some? && c == Opened(Rebuild(swept.store.rows, ids).value, ids)
    ensures Open(s, config, now) == swept.(client := Some(c))
  {
  }

  lemma RebuiltFrom(t: System, c: Client)
    requires NoRepeats(c.order) && (forall id :: id in c.order <==> id in t.store.rows)
    requires forall i, j :: 0 <= i < j < |c.order| ==>
      t.store.rows[c.order[i]].sequence < t.store.rows[c.order[j]].sequence
    requires forall id :: id in c.active <==> id in c.order
    requires forall id :: id in c.order ==> c.active[id] == Recovered(t.store.rows[id])
    requires Reserves(c.active, c.reserved, Free) && c == Opened(Records(c.active, c.reserved), c.order)
    ensures Rebuilt(t, c)
  {
    assert c.active.Keys == t.store.rows.Keys;
    ReservedExactly(c);
  }

  /** The whole table, once each, in order of admission. */
  lemma AllInOrder(s: System)
    requires StoreOk(s)
    ensures var ids := InOrder(s.store.rows, s.store.next);
            && NoRepeats(ids) && (forall id :: id in ids <==> id in s.store.rows)
            && (forall i, j :: 0 <= i < j < |ids| ==> s.store.rows[ids[i]].sequence < s.store.rows[ids[j]].sequence)
  {
    var rows, ids := s.store.rows, InOrder(s.store.rows, s.store.next);
    InOrderLists(s, s.store.next);
    forall i, j | 0 <= i < j < |ids| ensures ids[i] != ids[j] {
      assert rows[ids[i]].sequence < rows[ids[j]].sequence;
    }
    forall id | id in rows ensures id in ids {
      assert s.log[rows[id].sequence] == rows[id].message;
    }
  }

  lemma SweptTo(s: System, swept: System, t: System)
    requires StoreOk(swept) && Extends(s, swept) && t.store == swept.store && t.log == swept.log
        && t.wire == swept.wire && t.acked == swept.acked
    ensures StoreOk(t) && Extends(s, t)
  {
    SameHistory(swept, t);
    assert forall k :: Covered(s, k) ==> Covered(swept, k);
  }

  lemma RecoveredOk(s: System, id: string)
    requires StoreOk(s) && id in s.store.rows
    ensures HandleOk(s, id, Recovered(s.store.rows[id]))
  {
    var row := s.store.rows[id];
    forall x | x in s.store.rows && s.store.rows[x].sequence == row.sequence ensures x == id {
      SequenceOnce(s, x, id);
    }
    assert Covered(s, row.sequence) ==> row.started;
    assert row.started ==> Covered(s, row.sequence);
  }

  lemma RebuiltInvariant(s: System, c: Client, config: Config)
    requires StoreOk(s) && Rebuilt(s, c) && |s.store.rows| <= config.maxInflight
    ensures Ledger(s, c) && Seats(c, config)
  {
    forall id | id in c.active ensures HandleOk(s, id, c.active[id]) && IsId(c.active[id].packetId) {
      RecoveredOk(s, id);
    }
    assert |c.active| == |c.active.Keys| && |s.store.rows| == |s.store.rows.Keys|;
  }
}

/** The main results about the durable client. */
module DurableTheorems {
  import opened Optional
  import opened DeliveryRecords
  import opened PacketIds
  import opened DurableMachine
  import opened DurableReservations
  import opened DurableCapacity
  import opened DurableLedger
  import opened DurableStore
  import opened DurableReopening

  /** Shutdown leaves nothing in the book. */
  predicate Emptied(c: Client) { c.active == map[] && c.reserved == map[] && c.order == [] }

  ghost predicate Inv(s: System, config: Config) {
    && StoreOk(s)
    && (s.client.Some? ==>
          if s.client.value.settled then Finished(s, s.client.value) && Emptied(s.client.value)
          else Reservations(s.client.value) && Ledger(s, s.client.value) && Seats(s.client.value, config))
  }

  // ---------- seats across store steps ----------

  /** The same operation, possibly further on. */
  predicate SameOperation(g: Gate, h: Gate) {
    match g
    case Free => h.Free?
    case Admitting(m, n, _) => h.Admitting? && h.message == m && h.generation == n
    case Joining(id, n, _) => h.Joining? && h.id == id && h.generation == n
    case Reattaching(id, n, _) => h.Reattaching? && h.id == id && h.generation == n
    case Checking(id, purpose, _) => h.Checking? && h.id == id && h.purpose == purpose
    case Marking(id, _) => h.Marking? && h.id == id
    case Acking(id, n, _, _) => h.Acking? && h.id == id && h.generation == n
  }

  lemma OperationSeats(c: Client, config: Config, gate: Gate)
    requires Seats(c, config) && SameOperation(c.gate, gate)
    ensures Seats(c.(gate := gate), config)
  {
    if c.session.alive {
      OperationSession(c, config, gate);
    }
  }

  lemma OperationSession(c: Client, config: Config, gate: Gate)
    requires SessionOk(c, config) && SameOperation(c.gate, gate)
    ensures SessionOk(c.(gate := gate), config)
  {
    var d := c.(gate := gate);
    assert Held(d) == Held(c) && ReplayAtGate(d) == ReplayAtGate(c);
  }

  lemma CommitMoves(s: System, c: Client, config: Config, now: int, messageExpired: bool)
    requires s.client == Some(c)
    ensures var t := Commit(s, config, now, messageExpired);
            t.client.Some? && t.client.value == c.(gate := t.client.value.gate)
                && SameOperation(c.gate, t.client.value.gate)
  {
    if c.gate.Checking? || c.gate.Joining? || c.gate.Reattaching? || c.gate.Marking? {
      UpdateMoves(s, c, config, now, messageExpired);
    }
  }

  lemma UpdateMoves(s: System, c: Client, config: Config, now: int, messageExpired: bool)
    requires s.client == Some(c) && (c.gate.Checking? || c.gate.Joining? || c.gate.Reattaching? || c.gate.Marking?)
    ensures var t := Commit(s, config, now, messageExpired);
            t.client.Some? && t.client.value == c.(gate := t.client.value.gate)
                && SameOperation(c.gate, t.client.value.gate)
  {
  }

  lemma CommitSeats(s: System, c: Client, config: Config, now: int, messageExpired: bool)
    requires Seats(c, config) && s.client == Some(c)
    ensures var t := Commit(s, config, now, messageExpired); t.client.Some? && Seats(t.client.value, config)
  {
    CommitMoves(s, c, config, now, messageExpired);
    OperationSeats(c, config, Commit(s, config, now, messageExpired).client.value.gate);
  }

  lemma LookSeats(c: Client, config: Config, gate: Gate)
    requires Seats(c, config) && c.gate.Free? && gate.Checking? && !gate.purpose.ForReplay? && gate.id in c.active
    ensures Seats(c.(gate := gate), config)
  {
    assert c.session.alive ==> SessionOk(c.(gate := gate), config);
  }

  lemma WriteOutSeats(s: System, c: Client, config: Config, now: int)
    requires Seats(c, config) && s.client == Some(c)
    ensures var t := WriteOut(s, now); t.client.Some? && Seats(t.client.value, config)
  {
    WriteOutMoves(s, c, now);
    QueueSeats(c, config, c.session.queue, Resting);
    assert c.(session := c.session.(queue := c.session.queue), writer := Resting) == c.(writer := Resting);
    AbortedSeats(c, config);
    if c.gate.Free? && MayWrite(c) {
      LookSeats(c, config, Checking(c.writer.id, LastLook(now), None));
    }
  }

  lemma AbortedSeats(c: Client, config: Config)
    requires Seats(c, config)
    ensures Seats(Aborted(c).(writer := Resting), config)
  {
    var d := Aborted(c);
    AbortSeats(c, config);
    QueueSeats(d, config, d.session.queue, Resting);
    assert d.(session := d.session.(queue := d.session.queue), writer := Resting) == d.(writer := Resting);
  }

  // ---------- every step ----------

  lemma UpdateLedger(s: System, c: Client, config: Config)
    requires StoreOk(s) && Ledger(s, c) && Seats(c, config)
    requires c.gate.Joining? || c.gate.Reattaching? || c.gate.Marking?
    ensures Ledger(s, Resume(c))
  {
    if c.gate.committed {
      if c.gate.Marking? {
        MarkLedger(s, c);
      } else {
        JoinLedger(s, c, config);
      }
    }
  }

  lemma MarkLedger(s: System, c: Client)
    requires Ledger(s, c) && c.gate.Marking? && c.gate.committed
    ensures Ledger(s, Resume(c))
  {
    StartedLedger(s, c, c.gate.id);
  }

  lemma JoinLedger(s: System, c: Client, config: Config)
    requires Ledger(s, c) && Seats(c, config) && (c.gate.Joining? || c.gate.Reattaching?) && c.gate.committed
    ensures Ledger(s, Resume(c))
  {
    Unattached(c, config);
    AttachLedger(s, c, c.gate.id, c.gate.generation, if c.gate.Joining? then c.session.slots else c.session.slots + 1);
  }

  /** Only a delivery without a slot is attached. */
  lemma Unattached(c: Client, config: Config)
    requires Seats(c, config) && (c.gate.Joining? || c.gate.Reattaching?)
    ensures c.gate.generation == c.session.generation ==> c.gate.id !in c.session.deliveries
  {
  }

  lemma ResumeLedger(s: System, c: Client, config: Config)
    requires StoreOk(s) && Ledger(s, c) && Seats(c, config)
    ensures Ledger(s, Resume(c))
  {
    if c.gate.Joining? || c.gate.Reattaching? || c.gate.Marking? {
      UpdateLedger(s, c, config);
    } else if c.gate.Checking? {
      CheckLedger(s, c);
    } else if c.gate.Admitting? && c.gate.stored.Some? {
      PublishedLedger(s, c, c.gate.message, c.gate.generation, c.gate.stored.value);
    } else if c.gate.Acking? && c.gate.committed {
      ReleasedLedger(s, c, c.gate.id, c.gate.generation, c.gate.code);
    } else {
      assert Resume(c) == c;
    }
  }

  lemma CheckLedger(s: System, c: Client)
    requires Ledger(s, c) && c.gate.Checking?
    ensures Ledger(s, Resume(c))
  {
    if c.gate.verdict.Some? {
      CheckedLedger(s, c, c.gate.id, c.gate.purpose, c.gate.verdict.value);
    }
  }

  lemma PendingLedger(s: System, c: Client, pending: set<int>, next: int)
    requires Ledger(s, c)
    ensures Ledger(s, c.(session := c.session.(pending := pending, nextId := next)))
  {
    SameLedger(s, c, c.(session := c.session.(pending := pending, nextId := next)));
  }

  lemma RequestIs(c: Client, config: Config)
    ensures var d := Request(c, config);
            d == c.(session := c.session.(pending := d.session.pending, nextId := d.session.nextId))
  {
  }

  /** Inputs that only concern requests and flags. */
  lemma RequestLedger(s: System, c: Client, config: Config)
    requires Ledger(s, c)
    ensures Ledger(s, Request(c, config))
  {
    var d := Request(c, config);
    RequestIs(c, config);
    PendingLedger(s, c, d.session.pending, d.session.nextId);
  }

  lemma ReadyLedger(s: System, c: Client)
    requires Ledger(s, c)
    ensures Ledger(s, Ready(c))
  {
    SameLedger(s, c, Ready(c));
  }

  lemma OuterLedger(s: System, c: Client, config: Config, input: Input)
    requires Ledger(s, c) && (input.Ordinary? || input.Completed? || input.Disconnecting? || input.Restored?)
    ensures Ledger(s, ClientStep(c, config, input))
  {
    match input {
      case Ordinary => RequestLedger(s, c, config);
      case Restored => ReadyLedger(s, c);
      case Completed(packetId) => PendingLedger(s, c, c.session.pending - {packetId}, c.session.nextId);
      case Disconnecting => PendingLedger(s, c, c.session.pending + {0}, c.session.nextId);
    }
  }

  /** Inputs of the gate holder, the writer and the reader. */
  lemma InnerLedger(s: System, c: Client, config: Config, input: Input)
    requires StoreOk(s) && Reservations(c) && Ledger(s, c) && Seats(c, config)
    requires input.Admission? || input.Refused? || input.Resumed? || input.Item? || input.Enter? || input.Cancelled?
    ensures Ledger(s, ClientStep(c, config, input))
  {
    match input {
      case Admission(id, topic, payload, expires, now) => AdmitLedger(s, c, config, id, topic, payload, expires, now);
      case Refused => RefuseLedger(s, c);
      case Resumed => ResumeLedger(s, c, config);
      case _ => WriterTaskLedger(s, c, config, input);
    }
  }

  lemma WriterTaskLedger(s: System, c: Client, config: Config, input: Input)
    requires Ledger(s, c) && (input.Item? || input.Enter? || input.Cancelled?)
    ensures Ledger(s, ClientStep(c, config, input))
  {
    match input {
      case Item(id) => ItemLedger(s, c, id);
      case Enter => EnterLedger(s, c);
      case Cancelled => CancelLedger(s, c);
    }
  }

  lemma ClientLedger(s: System, c: Client, config: Config, input: Input)
    requires StoreOk(s) && Reservations(c) && Ledger(s, c) && Seats(c, config) && !input.Settling?
    ensures Ledger(s, ClientStep(c, config, input))
  {
    if || input.Admission? || input.Refused? || input.Resumed? || input.Item? || input.Enter? || input.Cancelled? {
      InnerLedger(s, c, config, input);
    } else if input.Acknowledgement? || input.Watchdog? {
      ReaderLedger(s, c, config, input);
    } else if input.Lost? || input.Stopping? || input.Connected? || input.Replaying? {
      SupervisorLedger(s, c, config, input);
    } else if input.Ordinary? || input.Completed? || input.Disconnecting? || input.Restored? {
      OuterLedger(s, c, config, input);
    } else {
      assert ClientStep(c, config, input) == c;
    }
  }

  lemma ReaderLedger(s: System, c: Client, config: Config, input: Input)
    requires Ledger(s, c) && (input.Acknowledgement? || input.Watchdog?)
    ensures Ledger(s, ClientStep(c, config, input))
  {
    match input {
      case Acknowledgement(id, code) => PubackLedger(s, c, id, code, 0);
      case Watchdog(id, now) => PubackLedger(s, c, id, 0, now);
    }
  }

  lemma SupervisorLedger(s: System, c: Client, config: Config, input: Input)
    requires Ledger(s, c) && (input.Lost? || input.Stopping? || input.Connected? || input.Replaying?)
    ensures Ledger(s, ClientStep(c, config, input))
  {
    match input {
      case Lost | Stopping => AbortLedger(s, c);
      case Connected => ConnectLedger(s, c);
      case Replaying => ReplayLedger(s, c);
    }
  }

  lemma CommitKeeps(s: System, config: Config, now: int, messageExpired: bool)
    requires Inv(s, config) && s.client.Some? && !s.client.value.settled
    ensures Inv(Commit(s, config, now, messageExpired), config)
  {
    var c, t := s.client.value, Commit(s, config, now, messageExpired);
    CommitMoves(s, c, config, now, messageExpired);
    HoldersKeep(c, t.client.value);
    CommitLedger(s, c, config, now, messageExpired);
    CommitSeats(s, c, config, now, messageExpired);
  }

  lemma WriteKeeps(s: System, config: Config, now: int)
    requires Inv(s, config) && s.client.Some? && !s.client.value.settled
    ensures Inv(WriteOut(s, now), config)
  {
    WriteReserves(s, now);
    WriteOutLedger(s, s.client.value, now);
    WriteOutSeats(s, s.client.value, config, now);
  }

  lemma BlockKeeps(s: System, config: Config, id: string)
    requires Inv(s, config) && s.client.Some? && !s.client.value.settled
    ensures Inv(BlockRow(s, id), config)
  {
    BlockLedger(s, s.client.value, id);
  }

  lemma ProcessKeeps(s: System, config: Config, input: Input)
    requires Inv(s, config) && s.client.Some? && !s.client.value.settled
    requires !input.Settling?
    ensures Inv(s.(client := Some(ClientStep(s.client.value, config, input))), config)
  {
    var c := s.client.value;
    var d := ClientStep(c, config, input);
    StepReserves(c, config, input);
    StepSeats(c, config, input);
    ClientLedger(s, c, config, input);
    ClientOnly(s, s.(client := Some(d)), d);
  }

  lemma LiveKeeps(s: System, config: Config, input: Input)
    requires Inv(s, config) && s.client.Some? && !s.client.value.settled
    ensures Inv(LiveStep(s, config, input), config)
  {
    if input.Committed? || input.Written? || input.Blocking? {
      OutsideKeeps(s, config, input);
    } else if input.Settling? {
      ShutdownKeeps(s, config);
    } else {
      CodeKeeps(s, config, input);
    }
  }

  /** Steps of the process alone. */
  lemma CodeKeeps(s: System, config: Config, input: Input)
    requires Inv(s, config) && s.client.Some? && !s.client.value.settled
    requires !input.Committed? && !input.Written? && !input.Blocking? && !input.Settling?
    ensures Inv(LiveStep(s, config, input), config)
  {
    ProcessKeeps(s, config, input);
    LiveIs(s, config, input, t => Inv(t, config));
  }

  lemma ShutdownKeeps(s: System, config: Config)
    requires Inv(s, config) && s.client.Some? && !s.client.value.settled
    ensures Inv(LiveStep(s, config, Settling), config)
  {
    SettleKeeps(s, s.client.value, config);
    LiveIs(s, config, Settling, t => Inv(t, config));
  }

  /** Steps that reach the store or the wire. */
  lemma OutsideKeeps(s: System, config: Config, input: Input)
    requires Inv(s, config) && s.client.Some? && !s.client.value.settled
    requires input.Committed? || input.Written? || input.Blocking?
    ensures Inv(LiveStep(s, config, input), config)
  {
    match input {
      case Committed(now, messageExpired) => CommitKeeps(s, config, now, messageExpired);
      case Written(now) => WriteKeeps(s, config, now);
      case Blocking(id) => BlockKeeps(s, config, id);
    }
    LiveIs(s, config, input, t => Inv(t, config));
  }

  /** A live step is one of five: a transaction, a socket write, a quarantine, shutdown, or code of the process. */
  lemma LiveIs(s: System, config: Config, input: Input, good: System -> bool)
    requires s.client.Some?
    requires input.Committed? ==> good(Commit(s, config, input.now, input.messageExpired))
    requires input.Written? ==> good(WriteOut(s, input.now))
    requires input.Blocking? ==> good(BlockRow(s, input.id))
    requires input.Settling? ==> good(s.(client := Some(Settle(s.client.value))))
    requires !input.Committed? && !input.Written? && !input.Blocking? && !input.Settling? ==>
      good(s.(client := Some(ClientStep(s.client.value, config, input))))
    ensures good(LiveStep(s, config, input))
  {
  }

  lemma FinishedStays(s: System, t: System, d: Client)
    requires Finished(s, d) && History(s) && Rows(s) && t == s.(client := Some(d))
    ensures Finished(t, d) && StoreOk(t)
  {
    SameHistory(s, t);
    SameFinished(s, t, d);
  }

  lemma SettleKeeps(s: System, c: Client, config: Config)
    requires Inv(s, config) && s.client == Some(c) && !c.settled
    ensures Inv(s.(client := Some(Settle(c))), config)
  {
    var d := Settle(c);
    if d == c {
      ClientOnly(s, s.(client := Some(d)), d);
    } else {
      SettleFinishes(s, c);
      FinishedStays(s, s.(client := Some(d)), d);
    }
  }

  lemma OpenKeeps(s: System, config: Config, now: int)
    requires Inv(s, config) && s.client.None?
    ensures Inv(Open(s, config, now), config)
  {
    OpensExactlyWhen(s, config, now);
    var t := Open(s, config, now);
    if t.client.Some? {
      RebuiltInvariant(t, t.client.value, config);
    }
  }

  lemma ExitKeeps(s: System, config: Config)
    requires Inv(s, config)
    ensures Inv(s.(client := None), config)
  {
    SameHistory(s, s.(client := None));
  }

  /** Every step keeps the invariant, whatever happens and wherever the process dies. */
  lemma StepKeeps(s: System, config: Config, input: Input)
    requires Inv(s, config)
    ensures Inv(Step(s, config, input), config)
  {
    if input.Opening? {
      if s.client.None? {
        OpenKeeps(s, config, input.now);
      }
    } else if s.client.Some? {
      if input.Exit? {
        ExitKeeps(s, config);
      } else if !s.client.value.settled {
        LiveKeeps(s, config, input);
      }
    }
  }

  lemma {:induction false} RunKeeps(s: System, config: Config, inputs: seq<Input>)
    requires Inv(s, config)
    ensures Inv(Run(s, config, inputs), config)
    decreases |inputs|
  {
    if inputs != [] {
      StepKeeps(s, config, inputs[0]);
      RunKeeps(Step(s, config, inputs[0]), config, inputs[1..]);
    }
  }

  // ---------- what it means ----------

  /**
   Write-ahead: in every run, with crashes anywhere, whatever may be on the wire and is
   not acknowledged has exactly one stored row: marked started, with the same delivery
   id, packet id and content. A packet that repeats an earlier one carries DUP.
   */
  lemma {:induction false} WriteAhead(config: Config, inputs: seq<Input>)
    ensures var s := Run(Empty(), config, inputs);
            forall i :: 0 <= i < |s.wire| && s.wire[i].sequence !in s.acked ==>
              && s.wire[i].message.id in s.store.rows
              && s.store.rows[s.wire[i].message.id].started
              && s.store.rows[s.wire[i].message.id].message == s.wire[i].message
              && (forall id :: id in s.store.rows && s.store.rows[id].sequence == s.wire[i].sequence ==>
                    id == s.wire[i].message.id)
    ensures var s := Run(Empty(), config, inputs);
            forall i, j :: 0 <= i < j < |s.wire| && s.wire[i].sequence == s.wire[j].sequence ==> s.wire[j].dup
  {
    RunKeeps(Empty(), config, inputs);
    var s := Run(Empty(), config, inputs);
    forall i | 0 <= i < |s.wire| && s.wire[i].sequence !in s.acked
      ensures s.wire[i].message.id in s.store.rows
      ensures s.store.rows[s.wire[i].message.id].started
      ensures s.store.rows[s.wire[i].message.id].message == s.wire[i].message
      ensures forall id :: id in s.store.rows && s.store.rows[id].sequence == s.wire[i].sequence ==>
        id == s.wire[i].message.id
    {
      assert Covered(s, s.wire[i].sequence);
      var x :| x in s.store.rows && s.store.rows[x].sequence == s.wire[i].sequence && s.store.rows[x].started;
      assert s.log[s.wire[i].sequence] == s.store.rows[x].message == s.wire[i].message;
      forall id | id in s.store.rows && s.store.rows[id].sequence == s.wire[i].sequence ensures id == x {
        SequenceOnce(s, id, x);
      }
    }
  }

  /** "Acknowledged" and "rejected" mean that the row is gone for good, "not sent" that nothing reached the wire. */
  ghost predicate Truthful(s: System, h: Handle) {
    && (h.state.phase.Acknowledged? || h.state.phase.Rejected? ==>
          h.sequence in s.acked && forall id :: id in s.store.rows ==> s.store.rows[id].sequence != h.sequence)
    && (h.state.phase.TerminalNotSent? ==> NoWire(s, h.sequence))
  }

  /**
   Every handle of a process is truthful, in this process's time and all before it: those
   that left the book, and those that are terminal while still in it, as an expired
   delivery is; and no store operation treats the row of such a one as pending again.
   */
  lemma {:induction false} SettledHandles(config: Config, inputs: seq<Input>)
    ensures var s := Run(Empty(), config, inputs);
            s.client.Some? ==>
              && (forall h :: h in s.client.value.finished ==> Truthful(s, h))
              && (forall id :: id in s.client.value.active ==> Truthful(s, s.client.value.active[id]))
              && (forall id :: id in s.client.value.active && Terminal(s.client.value.active[id].state.phase) ==>
                    Dead(s, id))
  {
    RunKeeps(Empty(), config, inputs);
    var s := Run(Empty(), config, inputs);
    if s.client.Some? {
      FinishedTruthful(s, s.client.value);
      if !s.client.value.settled {
        ActiveTruthful(s, s.client.value);
      }
    }
  }

  lemma FinishedTruthful(s: System, c: Client)
    requires StoreOk(s) && Finished(s, c)
    ensures forall h :: h in c.finished ==> Truthful(s, h)
  {
  }

  lemma ActiveTruthful(s: System, c: Client)
    requires Book(s, c) && Matched(s, c)
    ensures forall id :: id in c.active ==> Truthful(s, c.active[id])
    ensures forall id :: id in c.active && Terminal(c.active[id].state.phase) ==> Dead(s, id)
  {
    forall id | id in c.active ensures Truthful(s, c.active[id]) {
      assert HandleOk(s, id, c.active[id]);
    }
  }

  /**
   Capacity: on a live session ordinary requests (the reserved DISCONNECT slot apart)
   and delivery slots never exceed the bound; the slot counter is the number of attached
   deliveries plus one for a suspended admission of this very generation, so each
   admission transfers or returns its slot exactly once; and no ordinary request holds a
   packet id of the book.
   */
  lemma {:induction false} Capacity(config: Config, inputs: seq<Input>)
    ensures var s := Run(Empty(), config, inputs);
            s.client.Some? && s.client.value.session.alive && !s.client.value.settled ==>
              var c := s.client.value;
              && |c.session.pending - {0}| + c.session.slots <= config.maxInflight
              && c.session.slots == |c.session.deliveries| + Held(c)
              && c.session.pending !! c.reserved.Keys
              && (forall id :: id in c.active ==> c.active[id].packetId !in c.session.pending)
              && (c.gate.Admitting? ==>
                    && c.gate.message.packetId !in c.session.pending
                    && forall id :: id in c.active ==> c.active[id].packetId != c.gate.message.packetId)
  {
    RunKeeps(Empty(), config, inputs);
    var s := Run(Empty(), config, inputs);
    if s.client.Some? && s.client.value.session.alive && !s.client.value.settled {
      Slots(s.client.value, config);
    }
  }

  lemma Slots(c: Client, config: Config)
    requires Seats(c, config) && Reservations(c) && c.session.alive
    ensures |c.session.pending - {0}| + c.session.slots <= config.maxInflight
    ensures c.session.slots == |c.session.deliveries| + Held(c) && c.session.pending !! c.reserved.Keys
    ensures forall id :: id in c.active ==> c.active[id].packetId !in c.session.pending
    ensures c.gate.Admitting? ==>
      && c.gate.message.packetId !in c.session.pending
      && forall id :: id in c.active ==> c.active[id].packetId != c.gate.message.packetId
  {
    ReservedExactly(c);
  }

  /** `order`, `active` and `reserved` hold the same distinct deliveries, with the identifiers of their rows. */
  ghost predicate CoherentBook(s: System, c: Client) {
    && (forall id :: id in c.order <==> id in c.active) && NoRepeats(c.order) && Ordered(c)
    && c.reserved.Keys == ActiveIds(c) + Provisional(c.gate) && ActiveIds(c) !! Provisional(c.gate)
    && (forall id :: id in c.active ==> c.reserved[c.active[id].packetId] == id)
    && (forall a, b :: a in c.active && b in c.active && a != b ==> c.active[a].packetId != c.active[b].packetId)
    && (forall id :: id in c.active && id in s.store.rows ==>
          && c.active[id].packetId == s.store.rows[id].message.packetId
          && c.active[id].sequence == s.store.rows[id].sequence)
    && (forall id :: id in s.store.rows && id !in c.active ==>
          c.gate.Admitting? && c.gate.message == s.store.rows[id].message)
  }

  lemma LedgerCoherent(s: System, c: Client)
    requires Rows(s) && Reservations(c) && Ledger(s, c) && BookOk(c)
    ensures CoherentBook(s, c)
  {
    ReservedExactly(c);
    forall id | id in c.active && id in s.store.rows
      ensures c.active[id].packetId == s.store.rows[id].message.packetId
      ensures c.active[id].sequence == s.store.rows[id].sequence
    {
      assert HandleOk(s, id, c.active[id]);
    }
  }

  /**
   Book coherence: in every reachable state `order` lists exactly the active deliveries,
   once each and by admission, their packet ids are pairwise distinct and those of their
   rows, and `reserved` holds exactly these ids, each for its own delivery, and beyond
   them only the id of an admission that holds the gate. After shutdown all are empty.
   */
  lemma {:induction false} BookCoherence(config: Config, inputs: seq<Input>)
    ensures var s := Run(Empty(), config, inputs);
            s.client.Some? ==>
              var c := s.client.value;
              if c.settled then c.active == map[] && c.reserved == map[] && c.order == []
              else CoherentBook(s, c) && |c.active| + |Provisional(c.gate)| <= config.maxInflight
  {
    RunKeeps(Empty(), config, inputs);
    var s := Run(Empty(), config, inputs);
    if s.client.Some? && !s.client.value.settled {
      LedgerCoherent(s, s.client.value);
    }
  }

  /** An admission never meets the store's uniqueness constraints: only the record bound can refuse it. */
  lemma {:induction false} AdmissionFits(config: Config, inputs: seq<Input>)
    ensures var s := Run(Empty(), config, inputs);
            s.client.Some? && !s.client.value.settled && s.client.value.gate.Admitting?
                && s.client.value.gate.stored.None? ==>
              (Accepts(config, s.store.rows, s.client.value.gate.message) <==> |s.store.rows| < config.maxRecords)
  {
    RunKeeps(Empty(), config, inputs);
    var s := Run(Empty(), config, inputs);
    if s.client.Some? && !s.client.value.settled && s.client.value.gate.Admitting? && s.client.value.gate.stored.None? {
      var c := s.client.value;
      AdmissionIsUnique(s, c, c.gate.message, c.gate.generation);
    }
  }

  /**
   After any history and a crash, opening the store again brings back exactly the
   surviving rows as handles, in the order of admission, and every unacknowledged
   packet that was ever on the wire is among them, with DUP set, unless the store
   refuses to open because something is quarantined or does not fit.
   */
  lemma {:induction false} ReopenAfterAnything(config: Config, inputs: seq<Input>, now: int)
    ensures var s := Run(Empty(), config, inputs + [Exit]);
            var t := Run(Empty(), config, inputs + [Exit, Opening(now)]);
            && (t.client.Some? <==> Openable(ExpireAll(s.store.rows, now), config))
            && (t.client.Some? ==>
                  && Rebuilt(t, t.client.value)
                  && forall i :: 0 <= i < |s.wire| && s.wire[i].sequence !in s.acked ==>
                       && s.wire[i].message.id in t.client.value.active
                       && t.client.value.active[s.wire[i].message.id].sequence == s.wire[i].sequence
                       && t.client.value.active[s.wire[i].message.id].packetId == s.wire[i].message.packetId
                       && t.client.value.active[s.wire[i].message.id].state.topic == Some(s.wire[i].message.topic)
                       && t.client.value.active[s.wire[i].message.id].state.payload == Some(s.wire[i].message.payload)
                       && t.client.value.active[s.wire[i].message.id].state.everStarted)
  {
    RunKeeps(Empty(), config, inputs + [Exit]);
    var s := Run(Empty(), config, inputs + [Exit]);
    LastStep(Empty(), config, inputs, Exit);
    assert inputs + [Exit, Opening(now)] == (inputs + [Exit]) + [Opening(now)];
    LastStep(Empty(), config, inputs + [Exit], Opening(now));
    OpensExactlyWhen(s, config, now);
    var t := Open(s, config, now);
    if t.client.Some? {
      forall i | 0 <= i < |s.wire| && s.wire[i].sequence !in s.acked
        ensures s.wire[i].message.id in t.client.value.active
        ensures var h := t.client.value.active[s.wire[i].message.id];
                && h.sequence == s.wire[i].sequence && h.packetId == s.wire[i].message.packetId
                && h.state.topic == Some(s.wire[i].message.topic) && h.state.payload == Some(s.wire[i].message.payload)
                && h.state.everStarted
      {
        assert t.wire[i] == s.wire[i];
        SentIsRebuilt(t, t.client.value, i);
      }
    }
  }

  /** An unacknowledged packet on the wire has a row, so reopening makes a handle of it. */
  lemma SentIsRebuilt(t: System, c: Client, i: nat)
    requires StoreOk(t) && Rebuilt(t, c) && i < |t.wire| && t.wire[i].sequence !in t.acked
    ensures t.wire[i].message.id in c.active
    ensures var h := c.active[t.wire[i].message.id];
            && h.sequence == t.wire[i].sequence && h.packetId == t.wire[i].message.packetId
            && h.state.topic == Some(t.wire[i].message.topic) && h.state.payload == Some(t.wire[i].message.payload)
            && h.state.everStarted
  {
    assert Covered(t, t.wire[i].sequence);
    var x :| x in t.store.rows && t.store.rows[x].sequence == t.wire[i].sequence && t.store.rows[x].started;
    assert t.log[t.wire[i].sequence] == t.store.rows[x].message;
  }

  lemma {:induction false} LastStep(s: System, config: Config, inputs: seq<Input>, input: Input)
    ensures Run(s, config, inputs + [input]) == Step(Run(s, config, inputs), config, input)
    decreases |inputs|
  {
    if inputs == [] {
      assert inputs + [input] == [input];
    } else {
      assert (inputs + [input])[1..] == inputs[1..] + [input];
      LastStep(Step(s, config, inputs[0]), config, inputs[1..], input);
    }
  }
}
