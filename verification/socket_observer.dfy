/**
 The socket observer (`tests/closure/socket_observer.c`): interposed calls update
 tables indexed by file descriptor and append lifetime records to a bounded log.
 */
module SocketObserver {
  import opened Optional

  const FDS := 65536
  const LIMIT := 65536

  datatype Endpoint = Endpoint(ip: string, port: int)

  const NOWHERE := Endpoint("", 0)

  /** Kinds: 0 connect, 1 SO_ERROR read, 2 close, 3 resolution begins, 4 resolution ends. */
  datatype Event = Event(
    index: nat, ns: int, life: nat, dial: nat, fd: int, kind: int, rc: int, error: int, soError: int,
    local: Endpoint, remote: Endpoint)

  datatype State = State(
    lives: seq<nat>, dials: seq<nat>, remotes: seq<Endpoint>, sequence: nat, dialSequence: nat, activeDial: nat,
    activeResolution: Option<int>, rows: seq<Event>, total: nat, capacity: nat, exited: bool)

  /** An interposed call with what the real call and the clock answered. */
  datatype Call =
    | Connect(fd: int, inet: bool, remote: Endpoint, ns: int, rc: int, errno: int, local: Endpoint)
    | GetSockOpt(fd: int, soError: bool, ns: int, rc: int, errno: int, value: int, local: Endpoint)
    | Close(fd: int, ns: int, rc: int, errno: int, local: Endpoint)
    | GetAddrInfo(ns: int, rc: int, result: int, nsAfter: int)
    | FreeAddrInfo(ns: int, result: int)

  predicate Tracked(fd: int) { 0 <= fd < FDS }

  predicate WellFormed(s: State) {
    |s.lives| == FDS && |s.dials| == FDS && |s.remotes| == FDS &&
        |s.rows| == if s.total < s.capacity then s.total else s.capacity
  }

  function Append(s: State, e: Event): State {
    s.(rows := if s.total < s.capacity then s.rows + [e] else s.rows, total := s.total + 1)
  }

  function Record(s: State, fd: int, kind: int, rc: int, error: int, soError: int, ns: int, local: Endpoint): State
    requires WellFormed(s)
  {
    if !Tracked(fd) || s.lives[fd] == 0 then s
    else Append(s, Event(s.total, ns, s.lives[fd], s.dials[fd], fd, kind, rc, error, soError, local, s.remotes[fd]))
  }

  function Resolution(s: State, kind: int, rc: int, ns: int): State {
    Append(s, Event(s.total, ns, 0, s.activeDial, -1, kind, rc, 0, 0, NOWHERE, NOWHERE))
  }

  function Failed(rc: int, errno: int): int { if rc < 0 then errno else 0 }

  function Step(s: State, call: Call): (t: State)
    requires WellFormed(s)
    ensures WellFormed(t)
  {
    if s.exited then s
    else
      match call
      case Connect(fd, inet, remote, ns, rc, errno, local) =>
        if !Tracked(fd) || !inet then s
        else if s.lives[fd] != 0 then s.(exited := true)
        else
          var begun := s.(lives := s.lives[fd := s.sequence + 1], dials := s.dials[fd := s.activeDial],
                          remotes := s.remotes[fd := remote], sequence := s.sequence + 1);
          Record(begun, fd, 0, rc, Failed(rc, errno), 0, ns, local)
      case GetSockOpt(fd, soError, ns, rc, errno, value, local) =>
        if soError then Record(s, fd, 1, rc, Failed(rc, errno), if rc == 0 then value else -1, ns, local) else s
      case Close(fd, ns, rc, errno, local) =>
        var noted := Record(s, fd, 2, rc, Failed(rc, errno), 0, ns, local);
        if Tracked(fd) then noted.(lives := noted.lives[fd := 0]) else noted
      case GetAddrInfo(ns, rc, result, nsAfter) =>
        if s.activeDial != 0 then s.(exited := true)
        else
          var begun := s.(dialSequence := s.dialSequence + 1, activeDial := s.dialSequence + 1,
                          activeResolution := if rc == 0 then Some(result) else None);
          var noted := Resolution(begun, 3, rc, ns);
          if rc != 0 then Resolution(noted, 4, rc, nsAfter).(activeDial := 0) else noted
      case FreeAddrInfo(ns, result) =>
        if s.activeDial != 0 && s.activeResolution == Some(result)
        then Resolution(s, 4, 0, ns).(activeDial := 0, activeResolution := None) else s
  }

  class Observer {
    const lives: array<nat>
    const dials: array<nat>
    const remotes: array<Endpoint>
    const rows: array<Event>
    const capacity: nat
    var sequence: nat
    var dialSequence: nat
    var activeDial: nat
    var activeResolution: Option<int>
    var total: nat
    var exited: bool

    predicate Valid() {
      && lives.Length == dials.Length == remotes.Length == FDS && capacity <= rows.Length
      && lives != dials
    }

    function Stored(): nat
      reads this
    {
      if total < capacity then total else capacity
    }

    function View(): State
      requires Valid()
      reads this, lives, dials, remotes, rows
    {
      State(lives[..], dials[..], remotes[..], sequence, dialSequence, activeDial, activeResolution,
            rows[..Stored()], total, capacity, exited)
    }

    constructor (capacity: nat)
      requires 0 < capacity <= LIMIT
      ensures Valid() && this.capacity == capacity && View() == Start(capacity)
    {
      var none := Event(0, 0, 0, 0, 0, 0, 0, 0, 0, NOWHERE, NOWHERE);
      lives := new nat[FDS](_ => 0);
      dials := new nat[FDS](_ => 0);
      remotes := new Endpoint[FDS](_ => NOWHERE);
      rows := new Event[LIMIT](_ => none);
      this.capacity, sequence, dialSequence, activeDial, activeResolution, total, exited := capacity, 0, 0, 0, None,
          0, false;
    }

    method Put(e: Event)
      requires Valid()
      modifies rows, this`total
      ensures View() == Append(old(View()), e)
    {
      if total < capacity { rows[total] := e; }
      total := total + 1;
    }

    method RecordEvent(fd: int, kind: int, rc: int, error: int, soError: int, ns: int, local: Endpoint)
      requires Valid()
      modifies rows, this`total
      ensures View() == Record(old(View()), fd, kind, rc, error, soError, ns, local)
    {
      if !Tracked(fd) || lives[fd] == 0 { return; }
      Put(Event(total, ns, lives[fd], dials[fd], fd, kind, rc, error, soError, local, remotes[fd]));
    }

    method ObservedConnect(fd: int, inet: bool, remote: Endpoint, ns: int, rc: int, errno: int, local: Endpoint)
      requires Valid() && !exited
      modifies this, lives, dials, remotes, rows
      ensures View() == Step(old(View()), Connect(fd, inet, remote, ns, rc, errno, local))
    {
      if !Tracked(fd) || !inet { return; }
      if lives[fd] != 0 {
        exited := true;
        return;
      }
      sequence := sequence + 1;
      lives[fd] := sequence;
      dials[fd] := activeDial;
      remotes[fd] := remote;
      RecordEvent(fd, 0, rc, Failed(rc, errno), 0, ns, local);
    }

    method ObservedGetSockOpt(fd: int, soError: bool, ns: int, rc: int, errno: int, value: int, local: Endpoint)
      requires Valid() && !exited
      modifies this, rows
      ensures View() == Step(old(View()), GetSockOpt(fd, soError, ns, rc, errno, value, local))
    {
      if soError {
        RecordEvent(fd, 1, rc, Failed(rc, errno), if rc == 0 then value else -1, ns, local);
      }
    }

    /** The record is written before the real close, and completed with its result after it. */
    method ObservedClose(fd: int, ns: int, rc: int, errno: int, local: Endpoint)
      requires Valid() && !exited
      modifies this, lives, rows
      ensures View() == Step(old(View()), Close(fd, ns, rc, errno, local))
    {
      var index := total;
      RecordEvent(fd, 2, 0, 0, 0, ns, local);
      if total > index && index < capacity {
        rows[index] := rows[index].(rc := rc, error := Failed(rc, errno));
      }
      if Tracked(fd) { lives[fd] := 0; }
    }

    method ObservedGetAddrInfo(ns: int, rc: int, result: int, nsAfter: int)
      requires Valid() && !exited
      modifies this, rows
      ensures View() == Step(old(View()), GetAddrInfo(ns, rc, result, nsAfter))
    {
      if activeDial != 0 {
        exited := true;
        return;
      }
      dialSequence := dialSequence + 1;
      activeDial := dialSequence;
      activeResolution := if rc == 0 then Some(result) else None;
      Put(Event(total, ns, 0, activeDial, -1, 3, rc, 0, 0, NOWHERE, NOWHERE));
      if rc != 0 {
        Put(Event(total, nsAfter, 0, activeDial, -1, 4, rc, 0, 0, NOWHERE, NOWHERE));
        activeDial := 0;
      }
    }

    method ObservedFreeAddrInfo(ns: int, result: int)
      requires Valid() && !exited
      modifies this, rows
      ensures View() == Step(old(View()), FreeAddrInfo(ns, result))
    {
      if activeDial != 0 && activeResolution == Some(result) {
        Put(Event(total, ns, 0, activeDial, -1, 4, 0, 0, 0, NOWHERE, NOWHERE));
        activeDial, activeResolution := 0, None;
      }
    }
  }

  function Start(capacity: nat): (s: State)
    ensures WellFormed(s)
  {
    State(seq(FDS, _ => 0), seq(FDS, _ => 0), seq(FDS, _ => NOWHERE), 0, 0, 0, None, [], 0, capacity, false)
  }

  function Run(s: State, calls: seq<Call>): (t: State)
    requires WellFormed(s)
    ensures WellFormed(t)
    decreases |calls|
  {
    if calls == [] then s else Run(Step(s, calls[0]), calls[1..])
  }
}
