/**
 What the store's transactions, the socket write and opening do to the ledger.
 */
module DurableStore {
  import opened Optional
  import opened DeliveryRecords
  import opened PacketIds
  import opened DurableMachine
  import opened DurableCapacity
  import opened DurableLedger

  /** Nothing recorded is forgotten, and no packet is written. */
  ghost predicate Extends(s: System, t: System) {
    && t.wire == s.wire && t.store.next >= s.store.next
    && (forall k :: k in s.log ==> k in t.log && t.log[k] == s.log[k])
    && (forall k :: k in s.acked ==> k in t.acked)
    && (forall k :: Covered(s, k) ==> Covered(t, k))
  }

  lemma ExtendsBook(s: System, t: System, c: Client)
    requires Extends(s, t) && Book(s, c)
    ensures Book(t, c)
  {
    forall id | id in c.active ensures HandleOk(t, id, c.active[id]) {
      assert HandleOk(s, id, c.active[id]);
    }
  }

  lemma ExtendsWriter(s: System, t: System, c: Client, d: Client)
    requires Extends(s, t) && WriterLedger(s, c)
    requires d.active == c.active && d.writer == c.writer && d.session == c.session
        && (d.gate.Acking? ==> c.gate.Acking? && d.gate.id == c.gate.id)
    ensures WriterLedger(t, d)
  {
  }

  lemma ExtendsHistory(s: System, t: System)
    requires Extends(s, t) && History(s)
    requires (forall k :: k in t.acked ==> k in t.log) && (forall k :: k in t.log ==> k < t.store.next)
    ensures History(t)
  {
  }

  lemma ExtendsFinished(s: System, t: System, c: Client, d: Client)
    requires Extends(s, t) && Finished(s, c) && d.active == c.active && d.finished == c.finished
    requires d.gate.Admitting? ==> forall k :: k in s.log ==> d.gate.stored != Some(k)
    ensures Finished(t, d)
  {
  }

  /** One handle's row: a pending handle and an unblocked row with its id are the same admission. */
  lemma SameAdmission(s: System, c: Client, id: string)
    requires Rows(s) && Book(s, c) && Matched(s, c) && id in c.active && id in s.store.rows && !c.gate.Admitting?
    ensures s.store.rows[id].sequence == c.active[id].sequence
        && s.store.rows[id].message.expires == c.active[id].expires
  {
    assert HandleOk(s, id, c.active[id]);
  }

  lemma SequenceOnce(s: System, id: string, other: string)
    requires Rows(s) && id in s.store.rows && other in s.store.rows
        && s.store.rows[id].sequence == s.store.rows[other].sequence
    ensures id == other
  {
    assert s.log[s.store.rows[id].sequence].id == id;
    assert s.log[s.store.rows[other].sequence].id == other;
  }

  /** Rewriting one row without losing its start mark keeps every admission covered. */
  lemma RowRewritten(s: System, t: System, id: string, row: Row)
    requires id in s.store.rows && row.sequence == s.store.rows[id].sequence
        && (s.store.rows[id].started ==> row.started)
    requires t.store.rows == s.store.rows[id := row] && t.store.next == s.store.next && t.log == s.log
    requires t.acked == s.acked && t.wire == s.wire
    ensures Extends(s, t)
    ensures Rows(s) && row.message == s.store.rows[id].message ==> Rows(t)
  {
    forall k | Covered(s, k) ensures Covered(t, k) {
      if k !in s.acked {
        var x :| x in s.store.rows && s.store.rows[x].sequence == k && s.store.rows[x].started;
        assert x in t.store.rows && t.store.rows[x].sequence == k && t.store.rows[x].started;
      }
    }
  }

  /** A row may go when it was never possibly written, or when its admission is acknowledged. */
  lemma RowRemoved(s: System, t: System, id: string)
    requires id in s.store.rows && t.store.rows == s.store.rows - {id} && t.store.next == s.store.next
    requires t.log == s.log && t.wire == s.wire && Rows(s)
    requires (t.acked == s.acked && !s.store.rows[id].started) || t.acked == s.acked + {s.store.rows[id].sequence}
    ensures Extends(s, t) && Rows(t)
  {
    forall k | Covered(s, k) ensures Covered(t, k) {
      if k !in t.acked {
        var x :| x in s.store.rows && s.store.rows[x].sequence == k && s.store.rows[x].started;
        assert x in t.store.rows && t.store.rows[x].sequence == k && t.store.rows[x].started;
      }
    }
    forall x | x in t.store.rows ensures t.store.rows[x].sequence !in t.acked {
      if t.store.rows[x].sequence == s.store.rows[id].sequence {
        SequenceOnce(s, x, id);
      }
    }
  }

  /** The accounts do not look at the client slot of the system. */
  lemma SameHistory(s: System, t: System)
    requires t.store == s.store && t.log == s.log && t.wire == s.wire && t.acked == s.acked
    ensures Extends(s, t) && (StoreOk(s) ==> StoreOk(t)) && forall k :: NoWire(s, k) ==> NoWire(t, k)
  {
    assert forall k :: Covered(s, k) ==> Covered(t, k);
    if StoreOk(s) {
      ExtendsHistory(s, t);
    }
  }

  lemma SameFinished(s: System, t: System, d: Client)
    requires Finished(s, d) && t == s.(client := t.client)
    ensures Finished(t, d)
  {
    assert forall k :: NoWire(s, k) ==> NoWire(t, k);
  }

  lemma SameGate(s: System, t: System, d: Client)
    requires GateLedger(s, d) && t == s.(client := t.client)
    ensures GateLedger(t, d)
  {
    SameHistory(s, t);
  }

  lemma ClientOnly(s: System, t: System, d: Client)
    requires StoreOk(s) && Ledger(s, d) && t == s.(client := Some(d))
    ensures StoreOk(t) && Ledger(t, d)
  {
    SameHistory(s, t);
    ExtendsBook(s, t, d);
    ExtendsWriter(s, t, d, d);
    SameFinished(s, t, d);
    SameGate(s, t, d);
  }

  // ---------- committed transactions ----------

  /** The row of an admission is new in every column the schema keeps unique. */
  lemma AdmissionIsUnique(s: System, c: Client, m: Message, g: nat)
    requires Rows(s) && Book(s, c) && Matched(s, c) && GateLedger(s, c) && c.gate == Admitting(m, g, None)
    ensures m.id !in s.store.rows && forall id :: id in s.store.rows ==> s.store.rows[id].message.packetId != m.packetId
  {
    forall id | id in s.store.rows ensures s.store.rows[id].message.packetId != m.packetId {
      assert id in c.active && HandleOk(s, id, c.active[id]);
    }
  }

  lemma InsertExtends(s: System, t: System, m: Message)
    requires StoreOk(s) && m.id !in s.store.rows && IsId(m.packetId)
    requires forall id :: id in s.store.rows ==> s.store.rows[id].message.packetId != m.packetId
    requires t.store == Store(s.store.rows[m.id := Row(m, s.store.next, 0, false, false)], s.store.next + 1)
    requires t.log == s.log[s.store.next := m] && t.acked == s.acked && t.wire == s.wire
    ensures Extends(s, t) && StoreOk(t) && NoWire(t, s.store.next)
  {
    forall k | Covered(s, k) ensures Covered(t, k) {
      if k !in s.acked {
        var x :| x in s.store.rows && s.store.rows[x].sequence == k && s.store.rows[x].started;
        assert x in t.store.rows && t.store.rows[x].sequence == k && t.store.rows[x].started;
      }
    }
    assert s.store.next !in s.log;
  }

  /** A committed operation leaves the process alone but for the gate's progress. */
  lemma GateMoved(s: System, t: System, c: Client, gate: Gate)
    requires StoreOk(s) && Ledger(s, c) && Extends(s, t)
    requires Matched(t, c.(gate := gate)) && GateLedger(t, c.(gate := gate))
    requires gate.Acking? ==> c.gate.Acking? && gate.id == c.gate.id
    requires gate.Admitting? ==> forall k :: k in s.log ==> gate.stored != Some(k)
    ensures Ledger(t, c.(gate := gate))
  {
    var d := c.(gate := gate);
    ExtendsBook(s, t, c);
    ExtendsWriter(s, t, c, d);
    ExtendsFinished(s, t, c, d);
  }

  lemma MatchedRewritten(s: System, t: System, c: Client, gate: Gate, id: string, row: Row)
    requires Matched(s, c) && id in s.store.rows && t.store.rows == s.store.rows[id := row]
    requires row.sequence == s.store.rows[id].sequence && (s.store.rows[id].blocked ==> row.blocked)
    requires gate == c.gate || (Uncommitted(c.gate) && !c.gate.Admitting?)
    ensures Matched(t, c.(gate := gate))
  {
  }

  lemma MatchedRemoved(s: System, t: System, c: Client, gate: Gate, id: string)
    requires Matched(s, c) && id in s.store.rows && t.store.rows == s.store.rows - {id}
    requires Uncommitted(c.gate) && !c.gate.Admitting? && Gone(gate, id)
    ensures Matched(t, c.(gate := gate))
  {
  }

  lemma MatchedInserted(s: System, t: System, c: Client, m: Message, g: nat, k: nat, row: Row)
    requires Matched(s, c) && GateLedger(s, c) && c.gate == Admitting(m, g, None)
    requires t.store.rows == s.store.rows[m.id := row] && row.sequence == k
    ensures Matched(t, c.(gate := Admitting(m, g, Some(k))))
  {
  }

  lemma CommitInsert(s: System, t: System, c: Client, m: Message, g: nat)
    requires StoreOk(s) && Ledger(s, c) && c.gate == Admitting(m, g, None)
    requires forall id :: id in s.store.rows ==> s.store.rows[id].message.packetId != m.packetId
    requires t.store == Store(s.store.rows[m.id := Row(m, s.store.next, 0, false, false)], s.store.next + 1)
    requires t.log == s.log[s.store.next := m] && t.acked == s.acked && t.wire == s.wire
    ensures StoreOk(t) && Ledger(t, c.(gate := Admitting(m, g, Some(s.store.next))))
  {
    var gate := Admitting(m, g, Some(s.store.next));
    InsertExtends(s, t, m);
    MatchedInserted(s, t, c, m, g, s.store.next, t.store.rows[m.id]);
    GateMoved(s, t, c, gate);
  }

  /** An update of the gate holder's own row. */
  lemma CommitUpdate(s: System, t: System, c: Client, gate: Gate, id: string, row: Row)
    requires StoreOk(s) && Ledger(s, c) && id in s.store.rows && t.store == s.store.(rows := s.store.rows[id := row])
    requires row.message == s.store.rows[id].message && row.sequence == s.store.rows[id].sequence
    requires (s.store.rows[id].started ==> row.started) && (s.store.rows[id].blocked ==> row.blocked)
    requires t.log == s.log && t.acked == s.acked && t.wire == s.wire
    requires Uncommitted(c.gate) && !c.gate.Admitting? && !gate.Admitting? && !gate.Acking?
        && GateLedger(t, c.(gate := gate))
    ensures StoreOk(t) && Ledger(t, c.(gate := gate))
  {
    RowRewritten(s, t, id, row);
    ExtendsHistory(s, t);
    MatchedRewritten(s, t, c, gate, id, row);
    GateMoved(s, t, c, gate);
  }

  /** An update of one row while nobody holds the gate. */
  lemma FreeUpdate(s: System, t: System, c: Client, id: string, row: Row)
    requires StoreOk(s) && Ledger(s, c) && id in s.store.rows && t.store == s.store.(rows := s.store.rows[id := row])
        && c.gate.Free?
    requires row.message == s.store.rows[id].message && row.sequence == s.store.rows[id].sequence
    requires (s.store.rows[id].started ==> row.started) && (s.store.rows[id].blocked ==> row.blocked)
    requires t.log == s.log && t.acked == s.acked && t.wire == s.wire
    ensures StoreOk(t) && Ledger(t, c)
  {
    RowRewritten(s, t, id, row);
    ExtendsHistory(s, t);
    MatchedRewritten(s, t, c, c.gate, id, row);
    assert c.(gate := c.gate) == c;
    ExtendsBook(s, t, c);
    ExtendsWriter(s, t, c, c);
    ExtendsFinished(s, t, c, c);
  }

  lemma CommitAttach(s: System, t: System, c: Client, gate: Gate, id: string)
    requires StoreOk(s) && Ledger(s, c) && id in s.store.rows && Uncommitted(c.gate)
    requires (c.gate.Joining? && gate == Joining(id, c.gate.generation, true))
        || (c.gate.Reattaching? && gate == Reattaching(id, c.gate.generation, true))
    requires c.gate.id == id
    requires t == s.(
        store := s.store.(rows := s.store.rows[id := s.store.rows[id].(attempts := s.store.rows[id].attempts + 1)]),
        client := Some(c.(gate := gate)))
    ensures StoreOk(t) && Ledger(t, c.(gate := gate))
  {
    CommitUpdate(s, t, c, gate, id, t.store.rows[id]);
  }

  lemma CommitMark(s: System, t: System, c: Client, id: string)
    requires StoreOk(s) && Ledger(s, c) && c.gate == Marking(id, false) && id in s.store.rows
    requires t == s.(store := s.store.(rows := s.store.rows[id := s.store.rows[id].(started := true)]),
        client := Some(c.(gate := Marking(id, true))))
    ensures StoreOk(t) && Ledger(t, c.(gate := Marking(id, true)))
  {
    SameAdmission(s, c, id);
    assert id in t.store.rows && t.store.rows[id].sequence == c.active[id].sequence && t.store.rows[id].started;
    assert Covered(t, c.active[id].sequence);
    CommitUpdate(s, t, c, Marking(id, true), id, t.store.rows[id]);
  }

  lemma CommitAck(s: System, t: System, c: Client, id: string, g: nat, code: int)
    requires StoreOk(s) && Ledger(s, c) && c.gate == Acking(id, g, code, false) && id in s.store.rows
    requires t.store == s.store.(rows := s.store.rows - {id}) && t.acked == s.acked + {s.store.rows[id].sequence}
    requires t.log == s.log && t.wire == s.wire
    ensures StoreOk(t) && Ledger(t, c.(gate := Acking(id, g, code, true)))
  {
    var gate := Acking(id, g, code, true);
    SameAdmission(s, c, id);
    RowRemoved(s, t, id);
    ExtendsHistory(s, t);
    MatchedRemoved(s, t, c, gate, id);
    GateMoved(s, t, c, gate);
  }

  lemma VerdictExtends(s: System, t: System, id: string, verdict: Expiry)
    requires StoreOk(s) && id in s.store.rows && (verdict.Removed? ==> !s.store.rows[id].started)
    requires t.store == s.store.(rows := AfterExpiry(s.store.rows, id, verdict)) && t.log == s.log
        && t.acked == s.acked && t.wire == s.wire
    ensures Extends(s, t) && StoreOk(t)
  {
    match verdict {
      case StillPending =>
        assert forall k :: Covered(s, k) ==> Covered(t, k);
      case Removed =>
        RowRemoved(s, t, id);
        ExtendsHistory(s, t);
      case Blocked =>
        RowRewritten(s, t, id, t.store.rows[id]);
        ExtendsHistory(s, t);
    }
  }

  lemma CommitCheck(s: System, t: System, c: Client, id: string, purpose: Purpose, verdict: Expiry)
    requires StoreOk(s) && Ledger(s, c) && c.gate == Checking(id, purpose, None) && id in s.store.rows
        && !s.store.rows[id].blocked
    requires (verdict.Removed? ==> !s.store.rows[id].started)
    requires purpose.LastLook? && s.store.rows[id].message.expires <= purpose.now ==> !verdict.StillPending?
    requires t.store == s.store.(rows := AfterExpiry(s.store.rows, id, verdict)) && t.log == s.log
        && t.acked == s.acked && t.wire == s.wire
    ensures StoreOk(t) && Ledger(t, c.(gate := Checking(id, purpose, Some(verdict))))
  {
    var gate := Checking(id, purpose, Some(verdict));
    SameAdmission(s, c, id);
    VerdictExtends(s, t, id, verdict);
    VerdictMatched(s, t, c, gate, id, verdict);
    VerdictGate(s, t, c, id, purpose, verdict);
    GateMoved(s, t, c, gate);
  }

  lemma VerdictMatched(s: System, t: System, c: Client, gate: Gate, id: string, verdict: Expiry)
    requires Matched(s, c) && id in s.store.rows && Uncommitted(c.gate) && c.gate.Checking?
    requires gate.Checking? && gate.id == id && gate.verdict == Some(verdict)
    requires t.store.rows == AfterExpiry(s.store.rows, id, verdict)
    ensures Matched(t, c.(gate := gate))
  {
    if verdict.Removed? {
      MatchedRemoved(s, t, c, gate, id);
    } else {
      assert t.store.rows == s.store.rows[id := t.store.rows[id]];
      MatchedRewritten(s, t, c, gate, id, t.store.rows[id]);
    }
  }

  lemma VerdictGate(s: System, t: System, c: Client, id: string, purpose: Purpose, verdict: Expiry)
    requires GateLedger(s, c) && c.gate == Checking(id, purpose, None) && id in s.store.rows
    requires Matched(s, c) && !s.store.rows[id].blocked
    requires purpose.LastLook? && c.active[id].expires <= purpose.now ==> !verdict.StillPending?
    requires t.store.rows == AfterExpiry(s.store.rows, id, verdict)
    ensures GateLedger(t, c.(gate := Checking(id, purpose, Some(verdict))))
  {
  }

  lemma CommitGate(s: System, c: Client, config: Config, now: int, messageExpired: bool)
    requires StoreOk(s) && Ledger(s, c) && s.client == Some(c) && Uncommitted(c.gate)
        && (c.gate.Admitting? || c.gate.Acking?)
    ensures var t := Commit(s, config, now, messageExpired); StoreOk(t) && t.client.Some? && Ledger(t, t.client.value)
  {
    var t := Commit(s, config, now, messageExpired);
    if t != s {
      match c.gate {
        case Admitting(m, g, None) => CommitInsert(s, t, c, m, g);
        case Acking(id, g, code, false) => CommitAck(s, t, c, id, g, code);
      }
    }
  }

  lemma CommitRow(s: System, c: Client, config: Config, now: int, messageExpired: bool)
    requires StoreOk(s) && Ledger(s, c) && s.client == Some(c) && Uncommitted(c.gate)
        && (c.gate.Joining? || c.gate.Reattaching? || c.gate.Marking?)
    ensures var t := Commit(s, config, now, messageExpired); StoreOk(t) && t.client.Some? && Ledger(t, t.client.value)
  {
    var t := Commit(s, config, now, messageExpired);
    if t != s {
      if c.gate.Marking? {
        CommitMark(s, t, c, c.gate.id);
      } else {
        AttachCommits(s, c, config, now, messageExpired);
        CommitAttach(s, t, c, t.client.value.gate, c.gate.id);
      }
    }
  }

  lemma AttachCommits(s: System, c: Client, config: Config, now: int, messageExpired: bool)
    requires s.client == Some(c) && Uncommitted(c.gate) && (c.gate.Joining? || c.gate.Reattaching?)
    ensures var t, id := Commit(s, config, now, messageExpired), c.gate.id;
            t == s ||
            (var gate := if c.gate.Joining? then Joining(id, c.gate.generation, true)
                else Reattaching(id, c.gate.generation, true);
             id in s.store.rows && t == s.(
               store := s.store.(rows :=
                   s.store.rows[id := s.store.rows[id].(attempts := s.store.rows[id].attempts + 1)]),
               client := Some(c.(gate := gate))))
  {
  }

  lemma CommitVerdict(s: System, c: Client, config: Config, now: int, messageExpired: bool)
    requires StoreOk(s) && Ledger(s, c) && s.client == Some(c) && Uncommitted(c.gate) && c.gate.Checking?
    ensures var t := Commit(s, config, now, messageExpired); StoreOk(t) && t.client.Some? && Ledger(t, t.client.value)
  {
    var t := Commit(s, config, now, messageExpired);
    if t != s {
      CommitCheck(s, t, c, c.gate.id, c.gate.purpose, t.client.value.gate.verdict.value);
    }
  }

  /** A committed transaction keeps store and ledger. */
  lemma CommitLedger(s: System, c: Client, config: Config, now: int, messageExpired: bool)
    requires StoreOk(s) && Ledger(s, c) && s.client == Some(c)
    ensures var t := Commit(s, config, now, messageExpired); StoreOk(t) && t.client.Some? && Ledger(t, t.client.value)
  {
    if !Uncommitted(c.gate) {
      assert Commit(s, config, now, messageExpired) == s;
    } else if c.gate.Checking? {
      CommitVerdict(s, c, config, now, messageExpired);
    } else if c.gate.Admitting? || c.gate.Acking? {
      CommitGate(s, c, config, now, messageExpired);
    } else {
      CommitRow(s, c, config, now, messageExpired);
    }
  }

  lemma BlockLedger(s: System, c: Client, id: string)
    requires StoreOk(s) && Ledger(s, c) && s.client == Some(c)
    ensures StoreOk(BlockRow(s, id)) && Ledger(BlockRow(s, id), c)
  {
    var t := BlockRow(s, id);
    if t != s {
      FreeUpdate(s, t, c, id, t.store.rows[id]);
    }
  }

  // ---------- the socket write ----------

  lemma WriteHistory(s: System, t: System, w: Sent)
    requires History(s) && t.wire == s.wire + [w] && t.store == s.store && t.log == s.log && t.acked == s.acked
    requires w.sequence in s.log && w.message == s.log[w.sequence] && Covered(s, w.sequence)
        && (!w.dup ==> NoWire(s, w.sequence))
    ensures History(t)
    ensures forall k :: Covered(s, k) ==> Covered(t, k)
    ensures forall k :: k != w.sequence && NoWire(s, k) ==> NoWire(t, k)
  {
  }

  /** Other admissions are as little on the wire as before. */
  ghost predicate Wrote(s: System, t: System, w: Sent) {
    && t.wire == s.wire + [w] && t.store == s.store && t.log == s.log && t.acked == s.acked
    && (forall k :: Covered(s, k) ==> Covered(t, k)) && (forall k :: k != w.sequence && NoWire(s, k) ==> NoWire(t, k))
  }

  lemma WriteBook(s: System, t: System, c: Client, w: Sent, mine: string)
    requires Book(s, c) && Wrote(s, t, w) && mine in c.active && c.active[mine].sequence == w.sequence
        && c.active[mine].state.everStarted
    ensures Book(t, c)
  {
    forall id | id in c.active ensures HandleOk(t, id, c.active[id]) {
      assert HandleOk(s, id, c.active[id]) && HandleOk(s, mine, c.active[mine]);
    }
  }

  lemma WriteFinished(s: System, t: System, c: Client, w: Sent, mine: string)
    requires Finished(s, c) && Wrote(s, t, w) && mine in c.active && c.active[mine].sequence == w.sequence
    requires w.sequence in s.log && s.log[w.sequence].id == mine
    ensures Finished(t, c)
  {
  }

  lemma WriteGate(s: System, t: System, c: Client, w: Sent, mine: string)
    requires GateLedger(s, c) && Wrote(s, t, w) && mine in c.active && w.sequence in s.log
        && s.log[w.sequence].id == mine && !AtGate(c)
    ensures GateLedger(t, c.(writer := Resting))
  {
  }

  /** Only an admitted, covered, unfinished delivery is written, so all other accounts stand. */
  lemma WriteLedger(s: System, c: Client, t: System, w: Sent)
    requires StoreOk(s) && Ledger(s, c) && MayWrite(c) && c.writer.sequence == w.sequence
    requires t.wire == s.wire + [w] && t.store == s.store && t.log == s.log && t.acked == s.acked
    requires w.message == s.log[w.sequence] && w.dup == c.writer.dup && !AtGate(c)
    ensures StoreOk(t) && Ledger(t, c.(writer := Resting))
  {
    var mine := c.writer.id;
    assert HandleOk(s, mine, c.active[mine]);
    WriteHistory(s, t, w);
    WriteBook(s, t, c, w, mine);
    WriteFinished(s, t, c, w, mine);
    WriteGate(s, t, c, w, mine);
    WriteRest(s, t, c, w, mine);
  }

  lemma WriteRest(s: System, t: System, c: Client, w: Sent, mine: string)
    requires Matched(s, c) && Ordered(c) && WriterLedger(s, c) && Wrote(s, t, w)
    requires mine in c.active && c.active[mine].sequence == w.sequence
    ensures var d := c.(writer := Resting); Matched(t, d) && Ordered(d) && WriterLedger(t, d)
  {
  }

  lemma LookLedger(s: System, c: Client, now: int)
    requires Ledger(s, c) && c.gate.Free? && MayWrite(c) && now >= c.active[c.writer.id].expires
    ensures Ledger(s, c.(gate := Checking(c.writer.id, LastLook(now), None)))
  {
    GateTaken(s, c, Checking(c.writer.id, LastLook(now), None));
  }

  lemma SendLedger(s: System, c: Client, now: int)
    requires StoreOk(s) && Ledger(s, c) && s.client == Some(c) && MayWrite(c) && !AtGate(c)
        && now < c.active[c.writer.id].expires
    ensures var t := WriteOut(s, now); StoreOk(t) && t.client.Some? && Ledger(t, t.client.value)
  {
    var t := WriteOut(s, now);
    assert HandleOk(s, c.writer.id, c.active[c.writer.id]);
    WriteLedger(s, c, t, t.wire[|s.wire|]);
  }

  lemma RestLedger(s: System, c: Client)
    requires Ledger(s, c) && c.writer.Cleared? && !AtGate(c)
    ensures Ledger(s, c.(writer := Resting))
  {
    SameRecords(s, c, c.(writer := Resting));
  }

  lemma WriteOutLedger(s: System, c: Client, now: int)
    requires StoreOk(s) && Ledger(s, c) && s.client == Some(c)
    ensures var t := WriteOut(s, now); StoreOk(t) && t.client.Some? && Ledger(t, t.client.value)
  {
    if c.writer.Cleared? && !AtGate(c) && MayWrite(c) && now < c.active[c.writer.id].expires {
      SendLedger(s, c, now);
    } else if c.writer.Cleared? && !AtGate(c) && MayWrite(c) && c.gate.Free? {
      LookLedger(s, c, now);
      ClientOnly(s, WriteOut(s, now), c.(gate := Checking(c.writer.id, LastLook(now), None)));
    } else if c.writer.Cleared? && !AtGate(c) && !MayWrite(c) {
      RestLedger(s, c);
      ClientOnly(s, WriteOut(s, now), c.(writer := Resting));
    } else {
      assert WriteOut(s, now) == s;
    }
  }
}
