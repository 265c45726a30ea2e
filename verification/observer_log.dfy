/**
 What the observer's log looks like after any proper use: exactly the shape that the
 correlator in `tests/closure/dial_evidence.py` checks, also when descriptors are reused.
 */
module ObserverLog {
  import opened Optional
  import opened SocketObserver

  predicate Resolves(e: Event) { e.kind == 3 || e.kind == 4 }

  /** `lives[life]`: the records of one socket lifetime, in order. */
  function LifeRows(rows: seq<Event>, life: nat): (l: seq<Event>)
    ensures forall e :: e in l ==> e in rows && !Resolves(e) && e.life == life
  {
    if rows == [] then []
    else
      var last := rows[|rows| - 1];
      LifeRows(rows[..|rows| - 1], life) + if !Resolves(last) && last.life == life then [last] else []
  }

  /** `resolutions[dial]`. */
  function DialRows(rows: seq<Event>, dial: nat): (l: seq<Event>)
    ensures forall e :: e in l ==> e in rows && Resolves(e) && e.dial == dial
  {
    if rows == [] then []
    else
      var last := rows[|rows| - 1];
      DialRows(rows[..|rows| - 1], dial) + if Resolves(last) && last.dial == dial then [last] else []
  }

  lemma {:induction false} Appended(rows: seq<Event>, e: Event, k: nat)
    ensures LifeRows(rows + [e], k) == LifeRows(rows, k) + if !Resolves(e) && e.life == k then [e] else []
    ensures DialRows(rows + [e], k) == DialRows(rows, k) + if Resolves(e) && e.dial == k then [e] else []
  {
    assert (rows + [e])[..|rows|] == rows;
  }

  /** One connect first; a close only at the end; one descriptor, dial and remote throughout. */
  predicate Shape(l: seq<Event>, open: bool) {
    && |l| >= (if open then 1 else 2)
    && l[0].kind == 0
    && (forall i :: 1 <= i < |l| ==> l[i].kind == (if !open && i == |l| - 1 then 2 else 1))
    && (forall i :: 0 <= i < |l| ==> l[i].fd == l[0].fd && l[i].dial == l[0].dial && l[i].remote == l[0].remote)
  }

  predicate DialShape(l: seq<Event>, open: bool) {
    if open then |l| == 1 && l[0].kind == 3 else |l| == 2 && l[0].kind == 3 && l[1].kind == 4
  }

  /** The connect of a lifetime lies inside its resolution, as far as that has come. */
  predicate Bracketed(l: seq<Event>, resolution: seq<Event>) {
    && |l| >= 1 && |resolution| >= 1 && resolution[0].index < l[0].index
    && (|resolution| >= 2 ==> l[0].index < resolution[1].index)
  }

  predicate HasAttempt(rows: seq<Event>, dial: nat) { exists e :: e in rows && e.kind == 0 && e.dial == dial }

  /** The two groupings of a log, as functions. */
  type Grouping = nat -> seq<Event>

  function LifeOf(rows: seq<Event>): Grouping { (k: nat) => LifeRows(rows, k) }

  function DialOf(rows: seq<Event>): Grouping { (d: nat) => DialRows(rows, d) }

  ghost predicate LifeInv(s: State, l: seq<Event>, resolutions: Grouping, k: nat)
    requires WellFormed(s)
  {
    && |l| >= 1 && Tracked(l[0].fd) && Shape(l, s.lives[l[0].fd] == k)
    && 1 <= l[0].dial <= s.dialSequence && Bracketed(l, resolutions(l[0].dial)) && 0 <= l[0].index < s.total
    && (s.lives[l[0].fd] == k ==> s.dials[l[0].fd] == l[0].dial && s.remotes[l[0].fd] == l[0].remote)
  }

  predicate RowsOk(s: State) {
    && (forall i :: 0 <= i < |s.rows| ==> s.rows[i].index == i && 0 <= s.rows[i].kind <= 4)
    && (forall i :: 0 <= i < |s.rows| && !Resolves(s.rows[i]) ==> 1 <= s.rows[i].life <= s.sequence)
    && (forall i :: 0 <= i < |s.rows| && Resolves(s.rows[i]) ==> 1 <= s.rows[i].dial <= s.dialSequence)
  }

  ghost predicate LivesOk(s: State, lives: Grouping, resolutions: Grouping)
    requires WellFormed(s)
  {
    && (forall k: nat :: k > s.sequence ==> lives(k) == [])
    && (forall k: nat :: 1 <= k <= s.sequence ==> LifeInv(s, lives(k), resolutions, k))
  }

  /** A descriptor's current lifetime is one that was begun on it. */
  ghost predicate OpenOk(s: State, lives: Grouping)
    requires WellFormed(s)
  {
    forall fd :: 0 <= fd < FDS && s.lives[fd] != 0 ==>
      s.lives[fd] <= s.sequence && |lives(s.lives[fd])| >= 1 && lives(s.lives[fd])[0].fd == fd
  }

  ghost predicate DialsOk(s: State, resolutions: Grouping) {
    && s.activeDial <= s.dialSequence
    && (forall d: nat :: d > s.dialSequence ==> resolutions(d) == [])
    && (forall d: nat :: 1 <= d <= s.dialSequence ==>
          && DialShape(resolutions(d), d == s.activeDial)
          && (forall i :: 0 <= i < |resolutions(d)| ==> resolutions(d)[i].index < s.total)
          && (d != s.activeDial && resolutions(d)[0].rc == 0 ==> HasAttempt(s.rows, d)))
  }

  ghost predicate LogWith(s: State, lives: Grouping, resolutions: Grouping)
    requires WellFormed(s)
  {
    !s.exited && s.total <= s.capacity && RowsOk(s) && LivesOk(s, lives, resolutions) && OpenOk(s, lives)
        && DialsOk(s, resolutions)
  }

  ghost predicate LogInv(s: State)
    requires WellFormed(s)
  {
    LogWith(s, LifeOf(s.rows), DialOf(s.rows))
  }

  /** The assumptions of the observer: one serial client, sockets dialled inside a resolution, room in the log. */
  predicate Proper(s: State, call: Call)
    requires WellFormed(s)
  {
    match call
    case Connect(fd, inet, _, _, _, _, _) => Tracked(fd) && inet
        ==> s.lives[fd] == 0 && s.activeDial != 0 && s.total < s.capacity
    case GetSockOpt(_, _, _, _, _, _, _) => s.total < s.capacity
    case Close(_, _, _, _, _) => s.total < s.capacity
    case GetAddrInfo(_, _, _, _) => s.activeDial == 0 && s.total + 1 < s.capacity
    case FreeAddrInfo(_, result) =>
      s.activeDial != 0 && s.activeResolution == Some(result) ==>
        s.total < s.capacity && HasAttempt(s.rows, s.activeDial)
  }

  /** A record of an open lifetime joins its list. */
  lemma LifeGrows(l: seq<Event>, e: Event, closing: bool)
    requires Shape(l, true) && e.kind == (if closing then 2 else 1)
    requires e.fd == l[0].fd && e.dial == l[0].dial && e.remote == l[0].remote
    ensures Shape(l + [e], !closing)
  {
    var m := l + [e];
    assert forall i :: 0 <= i < |l| ==> m[i] == l[i];
    assert m[|l|] == e;
  }

  /** The log with one more record, seen through both groupings. */
  ghost predicate Extended(s: State, t: State, e: Event, l: Grouping, r: Grouping, l1: Grouping, r1: Grouping) {
    && t.rows == s.rows + [e] && t.total == s.total + 1 && e.index == s.total
    && (forall k: nat :: l1(k) == if !Resolves(e) && e.life == k then l(k) + [e] else l(k))
    && (forall d: nat :: r1(d) == if Resolves(e) && e.dial == d then r(d) + [e] else r(d))
    && (forall d: nat :: HasAttempt(s.rows, d) ==> HasAttempt(t.rows, d))
  }

  lemma Extends(s: State, t: State, e: Event)
    requires t.rows == s.rows + [e] && t.total == s.total + 1 && e.index == s.total
    ensures Extended(s, t, e, LifeOf(s.rows), DialOf(s.rows), LifeOf(t.rows), DialOf(t.rows))
  {
    forall k: nat
      ensures LifeRows(t.rows, k) == if !Resolves(e) && e.life == k then LifeRows(s.rows, k) + [e]
          else LifeRows(s.rows, k)
      ensures DialRows(t.rows, k) == if Resolves(e) && e.dial == k then DialRows(s.rows, k) + [e]
          else DialRows(s.rows, k)
    {
      Appended(s.rows, e, k);
    }
    forall d: nat | HasAttempt(s.rows, d) ensures HasAttempt(t.rows, d) {
      var x :| x in s.rows && x.kind == 0 && x.dial == d;
      assert x in t.rows;
    }
  }

  lemma RowsMore(s: State, t: State, e: Event)
    requires RowsOk(s) && t.rows == s.rows + [e] && e.index == |s.rows| && 0 <= e.kind <= 4
    requires t.sequence >= s.sequence && t.dialSequence >= s.dialSequence
    requires if Resolves(e) then 1 <= e.dial <= t.dialSequence else 1 <= e.life <= t.sequence
    ensures RowsOk(t)
  {
  }

  lemma SocketDials(s: State, t: State, e: Event, l: Grouping, r: Grouping, l1: Grouping, r1: Grouping)
    requires DialsOk(s, r) && Extended(s, t, e, l, r, l1, r1) && !Resolves(e)
    requires t.activeDial == s.activeDial && t.dialSequence == s.dialSequence
    ensures DialsOk(t, r1)
  {
  }

  /** A lifetime that the record does not belong to. */
  lemma OldLife(s: State, t: State, l: seq<Event>, r: Grouping, r1: Grouping, k: nat)
    requires WellFormed(s) && WellFormed(t) && LifeInv(s, l, r, k) && t.dialSequence >= s.dialSequence
        && t.total >= s.total
    requires Bracketed(l, r1(l[0].dial))
    requires (t.lives[l[0].fd] == k <==> s.lives[l[0].fd] == k)
    requires t.lives[l[0].fd] == k ==> t.dials[l[0].fd] == s.dials[l[0].fd] && t.remotes[l[0].fd] == s.remotes[l[0].fd]
    ensures LifeInv(t, l, r1, k)
  {
  }

  /** A connect begins a lifetime. */
  lemma NewLife(s: State, t: State, e: Event, fd: int, r: Grouping)
    requires WellFormed(s) && WellFormed(t) && DialsOk(s, r) && Tracked(fd) && s.activeDial != 0
        && t.total == s.total + 1
    requires t.sequence == s.sequence + 1 && t.lives[fd] == t.sequence && t.dials[fd] == s.activeDial
        && t.dialSequence == s.dialSequence
    requires e.index == s.total && e.dial == s.activeDial && e.fd == fd && e.kind == 0 && e.remote == t.remotes[fd]
    ensures LifeInv(t, [e], r, t.sequence)
  {
    assert DialShape(r(s.activeDial), true);
  }

  lemma ConnectLives(s: State, t: State, e: Event, fd: int, l: Grouping, r: Grouping, l1: Grouping, r1: Grouping)
    requires WellFormed(s) && WellFormed(t) && LivesOk(s, l, r) && OpenOk(s, l) && DialsOk(s, r)
        && Extended(s, t, e, l, r, l1, r1)
    requires Tracked(fd) && s.lives[fd] == 0 && s.activeDial != 0 && !Resolves(e) && e.life == t.sequence && e.fd == fd
    requires t.sequence == s.sequence + 1 && t.lives == s.lives[fd := t.sequence] && t.dialSequence == s.dialSequence
    requires t.dials == s.dials[fd := s.activeDial] && t.remotes == s.remotes[fd := e.remote]
        && e.dial == s.activeDial && e.kind == 0
    ensures LivesOk(t, l1, r1) && OpenOk(t, l1)
  {
    NewLife(s, t, e, fd, r);
    forall k: nat | 1 <= k <= t.sequence ensures LifeInv(t, l1(k), r1, k) {
      if k <= s.sequence {
        OldLife(s, t, l(k), r, r1, k);
      } else {
        assert l1(k) == [] + [e] == [e];
      }
    }
    assert l1(t.sequence) == [e];
  }

  lemma ConnectKeeps(s: State, fd: int, remote: Endpoint, ns: int, rc: int, errno: int, local: Endpoint)
    requires WellFormed(s) && LogInv(s) && Tracked(fd) && s.lives[fd] == 0 && s.activeDial != 0 && s.total < s.capacity
    ensures LogInv(Step(s, Connect(fd, true, remote, ns, rc, errno, local)))
  {
    var t := Step(s, Connect(fd, true, remote, ns, rc, errno, local));
    var e := t.rows[|s.rows|];
    var l, r, l1, r1 := LifeOf(s.rows), DialOf(s.rows), LifeOf(t.rows), DialOf(t.rows);
    Extends(s, t, e);
    SocketDials(s, t, e, l, r, l1, r1);
    ConnectLives(s, t, e, fd, l, r, l1, r1);
    RowsMore(s, t, e);
  }

  lemma MyLife(s: State, t: State, l: seq<Event>, e: Event, r: Grouping, fd: int, closing: bool)
    requires WellFormed(s) && WellFormed(t) && Tracked(fd) && s.lives[fd] != 0 && LifeInv(s, l, r, s.lives[fd])
        && l[0].fd == fd
    requires t.dialSequence == s.dialSequence && t.dials == s.dials && t.remotes == s.remotes && t.total >= s.total
    requires t.lives == if closing then s.lives[fd := 0] else s.lives
    requires e.fd == fd && e.dial == s.dials[fd] && e.remote == s.remotes[fd] && e.kind == if closing then 2 else 1
    ensures LifeInv(t, l + [e], r, s.lives[fd])
  {
    LifeGrows(l, e, closing);
  }

  /** The descriptor's lifetime gets one more record, and ends with it if that is a close. */
  lemma MoreLives(s: State, t: State, e: Event, fd: int, closing: bool, l: Grouping, r: Grouping, l1: Grouping,
      r1: Grouping)
    requires WellFormed(s) && WellFormed(t) && LivesOk(s, l, r) && OpenOk(s, l) && Extended(s, t, e, l, r, l1, r1)
    requires Tracked(fd) && s.lives[fd] != 0 && e.life == s.lives[fd] && e.fd == fd && e.dial == s.dials[fd]
        && e.remote == s.remotes[fd]
    requires t.sequence == s.sequence && t.dialSequence == s.dialSequence && t.dials == s.dials
        && t.remotes == s.remotes
    requires t.lives == (if closing then s.lives[fd := 0] else s.lives) && e.kind == if closing then 2 else 1
    ensures LivesOk(t, l1, r1) && OpenOk(t, l1)
  {
    forall k: nat | 1 <= k <= t.sequence ensures LifeInv(t, l1(k), r1, k) {
      if k == s.lives[fd] {
        MyLife(s, t, l(k), e, r1, fd, closing);
      } else {
        OldLife(s, t, l(k), r, r1, k);
      }
    }
    StillOpen(s, t, e, l, l1);
  }

  lemma StillOpen(s: State, t: State, e: Event, l: Grouping, l1: Grouping)
    requires WellFormed(s) && WellFormed(t) && OpenOk(s, l) && t.sequence == s.sequence
    requires forall fd :: 0 <= fd < FDS && t.lives[fd] != 0 ==> t.lives[fd] == s.lives[fd]
    requires forall k: nat :: l1(k) == if !Resolves(e) && e.life == k then l(k) + [e] else l(k)
    ensures OpenOk(t, l1)
  {
    forall f | 0 <= f < FDS && t.lives[f] != 0
      ensures t.lives[f] <= t.sequence && |l1(t.lives[f])| >= 1 && l1(t.lives[f])[0].fd == f
    {
      assert s.lives[f] == t.lives[f];
    }
  }

  lemma NotedWith(s: State, t: State, e: Event, fd: int, closing: bool, l: Grouping, r: Grouping, l1: Grouping,
      r1: Grouping)
    requires WellFormed(s) && WellFormed(t) && LogWith(s, l, r) && Extended(s, t, e, l, r, l1, r1) && Tracked(fd)
        && s.lives[fd] != 0
    requires t == s.(rows := t.rows, total := t.total, lives := t.lives) && t.total <= t.capacity
    requires t.lives == if closing then s.lives[fd := 0] else s.lives
    requires e.life == s.lives[fd] && e.fd == fd && e.dial == s.dials[fd] && e.remote == s.remotes[fd]
        && e.kind == if closing then 2 else 1
    ensures LogWith(t, l1, r1)
  {
    SocketDials(s, t, e, l, r, l1, r1);
    MoreLives(s, t, e, fd, closing, l, r, l1, r1);
    RowsMore(s, t, e);
  }

  lemma NotedKeeps(s: State, t: State, e: Event, fd: int, closing: bool)
    requires WellFormed(s) && WellFormed(t) && LogInv(s) && Tracked(fd) && s.lives[fd] != 0 && s.total < s.capacity
    requires t == Append(s, e).(lives := t.lives) && t.lives == if closing then s.lives[fd := 0] else s.lives
    requires e.index == s.total && e.life == s.lives[fd] && e.fd == fd && e.dial == s.dials[fd]
        && e.remote == s.remotes[fd]
    requires e.kind == if closing then 2 else 1
    ensures LogInv(t)
  {
    Extends(s, t, e);
    NotedWith(s, t, e, fd, closing, LifeOf(s.rows), DialOf(s.rows), LifeOf(t.rows), DialOf(t.rows));
  }

  /** A later record of an open lifetime; on an unobserved descriptor nothing is recorded. */
  lemma RecordKeeps(s: State, fd: int, kind: int, rc: int, error: int, soError: int, ns: int, local: Endpoint)
    requires WellFormed(s) && LogInv(s) && s.total < s.capacity && (kind == 1 || kind == 2)
    ensures var t := Record(s, fd, kind, rc, error, soError, ns, local);
            if Tracked(fd) && kind == 2 then LogInv(t.(lives := t.lives[fd := 0])) else LogInv(t)
  {
    if Tracked(fd) && s.lives[fd] != 0 {
      var e := Event(s.total, ns, s.lives[fd], s.dials[fd], fd, kind, rc, error, soError, local, s.remotes[fd]);
      var noted := Append(s, e);
      NotedKeeps(s, if kind == 2 then noted.(lives := noted.lives[fd := 0]) else noted, e, fd, kind == 2);
    } else if Tracked(fd) {
      assert s.lives[fd := 0] == s.lives;
    }
  }

  /** A resolution begins when none is open, and a successful one ends only after an attempt. */
  predicate Turns(s: State, t: State, e: Event) {
    && Resolves(e) && t.sequence == s.sequence
    && if e.kind == 3 then s.activeDial == 0 && e.dial == t.dialSequence == t.activeDial == s.dialSequence + 1
       else s.activeDial != 0 && e.dial == s.activeDial && t.activeDial == 0 && t.dialSequence == s.dialSequence
  }

  lemma ResolutionDials(s: State, t: State, e: Event, l: Grouping, r: Grouping, l1: Grouping, r1: Grouping)
    requires DialsOk(s, r) && Extended(s, t, e, l, r, l1, r1) && Turns(s, t, e)
    requires e.kind == 4 && |r(e.dial)| >= 1 && r(e.dial)[0].rc == 0 ==> HasAttempt(s.rows, e.dial)
    ensures DialsOk(t, r1)
  {
    assert r1(e.dial) == r(e.dial) + [e];
    assert e.kind == 4 ==> DialShape(r(e.dial), true);
  }

  lemma ResolutionLives(s: State, t: State, e: Event, l: Grouping, r: Grouping, l1: Grouping, r1: Grouping)
    requires WellFormed(s) && WellFormed(t) && LivesOk(s, l, r) && OpenOk(s, l) && Extended(s, t, e, l, r, l1, r1)
        && Turns(s, t, e)
    requires t.lives == s.lives && t.dials == s.dials && t.remotes == s.remotes
    ensures LivesOk(t, l1, r1) && OpenOk(t, l1)
  {
    forall k: nat | 1 <= k <= t.sequence ensures LifeInv(t, l1(k), r1, k) {
      OldLife(s, t, l(k), r, r1, k);
    }
  }

  lemma ResolutionKeeps(s: State, t: State, e: Event)
    requires WellFormed(s) && WellFormed(t) && LogInv(s) && s.total < s.capacity && Turns(s, t, e) && e.index == s.total
    requires t == Append(s, e).(dialSequence := t.dialSequence, activeDial := t.activeDial,
        activeResolution := t.activeResolution)
    requires e.kind == 4 && |DialOf(s.rows)(e.dial)| >= 1 && DialOf(s.rows)(e.dial)[0].rc == 0
        ==> HasAttempt(s.rows, e.dial)
    ensures LogInv(t)
    ensures e.kind == 3 ==> DialOf(t.rows)(e.dial) == [e]
  {
    var l, r, l1, r1 := LifeOf(s.rows), DialOf(s.rows), LifeOf(t.rows), DialOf(t.rows);
    Extends(s, t, e);
    ResolutionDials(s, t, e, l, r, l1, r1);
    ResolutionLives(s, t, e, l, r, l1, r1);
    RowsMore(s, t, e);
    assert r1(e.dial) == r(e.dial) + [e];
  }

  lemma DialBegins(s: State, rc: int, ns: int, resolution: Option<int>)
    requires WellFormed(s) && LogInv(s) && s.activeDial == 0 && s.total < s.capacity
    ensures var begun := s.(dialSequence := s.dialSequence + 1, activeDial := s.dialSequence + 1,
        activeResolution := resolution);
            var t := Resolution(begun, 3, rc, ns);
            && WellFormed(t) && LogInv(t) && t.activeDial == s.dialSequence + 1 && t.total == s.total + 1
                && t.capacity == s.capacity
            && |DialOf(t.rows)(t.activeDial)| >= 1 && DialOf(t.rows)(t.activeDial)[0].rc == rc
  {
    var begun := s.(dialSequence := s.dialSequence + 1, activeDial := s.dialSequence + 1,
        activeResolution := resolution);
    var t := Resolution(begun, 3, rc, ns);
    ResolutionKeeps(s, t, t.rows[|s.rows|]);
  }

  lemma DialKeeps(s: State, ns: int, rc: int, result: int, nsAfter: int)
    requires WellFormed(s) && LogInv(s) && s.activeDial == 0 && s.total + 1 < s.capacity
    ensures LogInv(Step(s, GetAddrInfo(ns, rc, result, nsAfter)))
  {
    var resolution := if rc == 0 then Some(result) else None;
    DialBegins(s, rc, ns, resolution);
    var noted := Resolution(s.(dialSequence := s.dialSequence + 1, activeDial := s.dialSequence + 1,
        activeResolution := resolution), 3, rc, ns);
    if rc != 0 {
      DialFails(noted, rc, nsAfter);
      assert Step(s, GetAddrInfo(ns, rc, result, nsAfter)) == Resolution(noted, 4, rc, nsAfter).(activeDial := 0);
    } else {
      assert Step(s, GetAddrInfo(ns, rc, result, nsAfter)) == noted;
    }
  }

  lemma DialFails(s: State, rc: int, ns: int)
    requires WellFormed(s) && LogInv(s) && s.activeDial != 0 && s.total < s.capacity && rc != 0
    requires |DialOf(s.rows)(s.activeDial)| >= 1 && DialOf(s.rows)(s.activeDial)[0].rc == rc
    ensures LogInv(Resolution(s, 4, rc, ns).(activeDial := 0))
  {
    var t := Resolution(s, 4, rc, ns).(activeDial := 0);
    ResolutionKeeps(s, t, t.rows[|s.rows|]);
  }

  /** Every proper call keeps the log in shape. */
  lemma StepKeeps(s: State, call: Call)
    requires WellFormed(s) && LogInv(s) && Proper(s, call)
    ensures LogInv(Step(s, call))
  {
    match call {
      case Connect(fd, inet, remote, ns, rc, errno, local) =>
        if Tracked(fd) && inet {
          ConnectKeeps(s, fd, remote, ns, rc, errno, local);
        }
      case GetSockOpt(fd, soError, ns, rc, errno, value, local) =>
        if soError {
          RecordKeeps(s, fd, 1, rc, Failed(rc, errno), if rc == 0 then value else -1, ns, local);
        }
      case Close(fd, ns, rc, errno, local) =>
        RecordKeeps(s, fd, 2, rc, Failed(rc, errno), 0, ns, local);
      case GetAddrInfo(ns, rc, result, nsAfter) =>
        DialKeeps(s, ns, rc, result, nsAfter);
      case FreeAddrInfo(ns, result) =>
        if s.activeDial != 0 && s.activeResolution == Some(result) {
          var t := Step(s, call);
          ResolutionKeeps(s, t, t.rows[|s.rows|]);
        }
    }
  }

  predicate ProperRun(s: State, calls: seq<Call>)
    requires WellFormed(s)
    decreases |calls|
  {
    calls == [] || (Proper(s, calls[0]) && ProperRun(Step(s, calls[0]), calls[1..]))
  }

  lemma {:induction false} RunKeeps(s: State, calls: seq<Call>)
    requires WellFormed(s) && LogInv(s) && ProperRun(s, calls)
    ensures LogInv(Run(s, calls))
    decreases |calls|
  {
    if calls != [] {
      StepKeeps(s, calls[0]);
      RunKeeps(Step(s, calls[0]), calls[1..]);
    }
  }

  lemma StartOk(capacity: nat)
    ensures LogInv(Start(capacity))
  {
  }
}
