/**
 The recorder meets the correlator: a log produced by proper use of the socket observer
 can never fail the correlator's structural checks, whatever descriptors are reused.
 */
module ClosureEvidence {
  import opened Optional
  import opened SocketObserver
  import opened ObserverLog
  import DialEvidence

  /** The clock is not set back between records. */
  predicate NotBefore(s: State, ns: int) { s.rows == [] || s.rows[|s.rows| - 1].ns <= ns }

  predicate Timely(s: State, call: Call) {
    match call
    case Connect(_, _, _, ns, _, _, _) => NotBefore(s, ns)
    case GetSockOpt(_, _, ns, _, _, _, _) => NotBefore(s, ns)
    case Close(_, ns, _, _, _) => NotBefore(s, ns)
    case GetAddrInfo(ns, _, _, nsAfter) => NotBefore(s, ns) && ns <= nsAfter
    case FreeAddrInfo(ns, _) => NotBefore(s, ns)
  }

  predicate TimelyRun(s: State, calls: seq<Call>)
    requires WellFormed(s)
    decreases |calls|
  {
    calls == [] || (Timely(s, calls[0]) && TimelyRun(Step(s, calls[0]), calls[1..]))
  }

  predicate Chronological(rows: seq<Event>) { forall i, j :: 0 <= i < j < |rows| ==> rows[i].ns <= rows[j].ns }

  lemma ChronologicalMore(rows: seq<Event>, e: Event)
    requires Chronological(rows) && (rows == [] || rows[|rows| - 1].ns <= e.ns)
    ensures Chronological(rows + [e])
  {
    var more := rows + [e];
    forall i, j | 0 <= i < j < |more| ensures more[i].ns <= more[j].ns {
      assert more[i] == rows[i];
      if j < |rows| {
        assert more[j] == rows[j];
      } else {
        assert rows[i].ns <= rows[|rows| - 1].ns;
      }
    }
  }

  /** A step adds at most the records it names, in time order. */
  lemma StepTimely(s: State, call: Call)
    requires WellFormed(s) && Chronological(s.rows) && Timely(s, call)
    ensures Chronological(Step(s, call).rows)
  {
    var t := Step(s, call);
    if call.GetAddrInfo? && |t.rows| == |s.rows| + 2 {
      var one := s.rows + [t.rows[|s.rows|]];
      ChronologicalMore(s.rows, t.rows[|s.rows|]);
      ChronologicalMore(one, t.rows[|s.rows| + 1]);
      assert t.rows == one + [t.rows[|s.rows| + 1]];
    } else if t.rows != s.rows {
      assert t.rows == s.rows + [t.rows[|s.rows|]];
      ChronologicalMore(s.rows, t.rows[|s.rows|]);
    }
  }

  lemma {:induction false} RunTimely(s: State, calls: seq<Call>)
    requires WellFormed(s) && Chronological(s.rows) && TimelyRun(s, calls)
    ensures Chronological(Run(s, calls).rows)
    decreases |calls|
  {
    if calls != [] {
      StepTimely(s, calls[0]);
      RunTimely(Step(s, calls[0]), calls[1..]);
    }
  }

  lemma {:induction false} LifeChronological(rows: seq<Event>, k: nat)
    requires Chronological(rows)
    ensures Chronological(LifeRows(rows, k))
  {
    if rows != [] {
      var front := rows[..|rows| - 1];
      LifeChronological(front, k);
      var l, last := LifeRows(front, k), rows[|rows| - 1];
      forall e | e in l ensures e.ns <= last.ns {
        var i :| 0 <= i < |front| && front[i] == e;
        assert rows[i] == e;
      }
      if LifeRows(rows, k) != l {
        assert l != [] ==> l[|l| - 1] in l;
        ChronologicalMore(l, last);
      }
    }
  }

  /** After a complete run no socket and no resolution is left open. */
  predicate Complete(s: State)
    requires WellFormed(s)
  {
    s.activeDial == 0 && forall fd :: 0 <= fd < FDS ==> s.lives[fd] == 0
  }

  /** What the recorder guarantees of a closed lifetime is more than the correlator asks. */
  lemma ShapeIsWhole(l: seq<Event>)
    requires Shape(l, false)
    ensures DialEvidence.WholeLife(l)
  {
  }

  lemma {:induction false} LifeShape(s: State, k: nat)
    requires WellFormed(s) && LogInv(s) && Complete(s) && LifeRows(s.rows, k) != []
    ensures var l := LifeRows(s.rows, k);
            && Shape(l, false) && l[0].dial > 0 && DialShape(DialRows(s.rows, l[0].dial), false)
            && Bracketed(l, DialRows(s.rows, l[0].dial))
  {
    var l := LifeOf(s.rows)(k);
    var e := l[0];
    assert e in s.rows && !Resolves(e) && e.life == k;
    var i :| 0 <= i < |s.rows| && s.rows[i] == e;
    assert LifeInv(s, LifeOf(s.rows)(k), DialOf(s.rows), k);
    assert DialShape(DialOf(s.rows)(e.dial), false);
  }

  /** One produced lifetime: the shape, the bracket and the clock order all hold. */
  lemma {:induction false} LifeProduced(s: State, k: nat)
    requires WellFormed(s) && LogInv(s) && Complete(s) && Chronological(s.rows) && LifeRows(s.rows, k) != []
    ensures var l := LifeRows(s.rows, k);
            DialEvidence.Structured(l, DialRows(s.rows, l[0].dial)) && DialEvidence.Ordered(l) && l[0].dial > 0
  {
    LifeShape(s, k);
    ShapeIsWhole(LifeRows(s.rows, k));
    LifeChronological(s.rows, k);
  }

  lemma {:induction false} DialProduced(s: State, d: nat)
    requires WellFormed(s) && LogInv(s) && Complete(s) && DialRows(s.rows, d) != []
    ensures d > 0 && DialShape(DialRows(s.rows, d), false)
    ensures DialRows(s.rows, d)[0].rc == 0 ==>
      exists k: nat :: LifeRows(s.rows, k) != [] && LifeRows(s.rows, k)[0].dial == d
  {
    var r := DialOf(s.rows)(d);
    assert r[0] in s.rows && Resolves(r[0]) && r[0].dial == d;
    var i :| 0 <= i < |s.rows| && s.rows[i] == r[0];
    assert DialShape(DialOf(s.rows)(d), false);
    if r[0].rc == 0 {
      assert HasAttempt(s.rows, d);
      var x :| x in s.rows && x.kind == 0 && x.dial == d;
      Grouped(s.rows, x);
      var j :| 0 <= j < |s.rows| && s.rows[j] == x;
      assert LifeInv(s, LifeOf(s.rows)(x.life), DialOf(s.rows), x.life);
      assert x in LifeRows(s.rows, x.life);
    }
  }

  lemma {:induction false} Grouped(rows: seq<Event>, e: Event)
    requires e in rows && !Resolves(e)
    ensures e in LifeRows(rows, e.life)
  {
    var k := |rows| - 1;
    if rows[k] != e {
      assert e in rows[..k];
      Grouped(rows[..k], e);
    }
  }

  /** The footer written at exit. */
  function FooterOf(s: State): DialEvidence.Footer {
    DialEvidence.Footer(s.total, if s.total > s.capacity then s.total - s.capacity else 0)
  }

  /** Every resolution the log names is a pair, begun and ended. */
  predicate ResolversSound(rows: seq<Event>) {
    forall d :: d in DialEvidence.DialIds(rows) ==> d > 0 && DialShape(DialRows(rows, d), false)
  }

  /** Every lifetime the log names is whole, bracketed by its resolution, and in time order. */
  predicate LivesSound(rows: seq<Event>) {
    forall k :: k in DialEvidence.LifeIds(rows) ==>
      var l := LifeRows(rows, k);
      l != [] && DialEvidence.Structured(l, DialRows(rows, l[0].dial)) && DialEvidence.Ordered(l)
  }

  predicate Tried(rows: seq<Event>, d: nat) {
    exists k :: k in DialEvidence.LifeIds(rows) && LifeRows(rows, k) != [] && LifeRows(rows, k)[0].dial == d
  }

  /** Every successful resolution was tried. */
  predicate AttemptsSound(rows: seq<Event>) {
    forall d :: d in DialEvidence.DialIds(rows) && DialRows(rows, d) != [] && DialRows(rows, d)[0].rc == 0
        ==> Tried(rows, d)
  }

  lemma ResolversProduced(s: State)
    requires WellFormed(s) && LogInv(s) && Complete(s)
    ensures ResolversSound(s.rows) && AttemptsSound(s.rows)
  {
    forall d | d in DialEvidence.DialIds(s.rows)
      ensures d > 0 && DialShape(DialRows(s.rows, d), false) && (DialRows(s.rows, d)[0].rc == 0 ==> Tried(s.rows, d))
    {
      DialEvidence.DialListed(s.rows, d);
      DialProduced(s, d);
      if DialRows(s.rows, d)[0].rc == 0 {
        var k: nat :| LifeRows(s.rows, k) != [] && LifeRows(s.rows, k)[0].dial == d;
        DialEvidence.LifeListed(s.rows, k);
      }
    }
  }

  lemma LivesProduced(s: State)
    requires WellFormed(s) && LogInv(s) && Complete(s) && Chronological(s.rows)
    ensures LivesSound(s.rows)
  {
    forall k | k in DialEvidence.LifeIds(s.rows)
      ensures LifeRows(s.rows, k) != []
      ensures var l := LifeRows(s.rows, k);
          DialEvidence.Structured(l, DialRows(s.rows, l[0].dial)) && DialEvidence.Ordered(l)
    {
      DialEvidence.LifeListed(s.rows, k);
      LifeProduced(s, k);
    }
  }

  /**
   Recorder meets correlator: after any proper, complete run of serial dials on a clock
   that is not set back, the log has no gap and passes every structural check, also
   under descriptor reuse: resolver pairs, one connect first and one close last, one
   descriptor and dial, the connect bracketed by its resolution, ordered times, and an
   attempt for every successful resolution.
   */
  lemma {:induction false} RecorderMeetsCorrelator(capacity: nat, calls: seq<Call>)
    requires ProperRun(Start(capacity), calls) && TimelyRun(Start(capacity), calls)
        && Complete(Run(Start(capacity), calls))
    ensures var s := Run(Start(capacity), calls);
            && DialEvidence.BufferOk(s.rows, FooterOf(s))
            && ResolversSound(s.rows) && LivesSound(s.rows) && AttemptsSound(s.rows)
  {
    StartOk(capacity);
    RunKeeps(Start(capacity), calls);
    RunTimely(Start(capacity), calls);
    ResolversProduced(Run(Start(capacity), calls));
    LivesProduced(Run(Start(capacity), calls));
  }

  /**
   What is left for the correlator to refuse about one lifetime: no numeric completion, a
   clock that did not move between connect and close, or the peers.
   */
  predicate WorldAgrees(l: seq<Event>, peers: seq<DialEvidence.Peer>) {
    && l != [] && DialEvidence.Completion(l).Some? && l[0].ns != DialEvidence.Last(l).ns
    && var fitting := DialEvidence.Candidates(l, DialEvidence.Accepts(peers));
       && |fitting| == (if DialEvidence.Completion(l) == Some(0) then 1 else 0)
       && (fitting != [] ==> DialEvidence.Stages(DialEvidence.EventsOf(peers, fitting[0].name)))
  }

  lemma {:induction false} LifeVerdict(s: State, k: nat, peers: seq<DialEvidence.Peer>)
    requires WellFormed(s) && LogInv(s) && Complete(s) && Chronological(s.rows) && LifeRows(s.rows, k) != []
    ensures var l := LifeRows(s.rows, k);
            DialEvidence.LifeOk(l, DialRows(s.rows, l[0].dial), peers) <==> WorldAgrees(l, peers)
  {
    LifeProduced(s, k);
    LifeChronological(s.rows, k);
  }

  /** ... and about the whole log: lifetimes of one tuple that overlap, or two CONNACKs in a dial. */
  ghost predicate WorldConsistent(rows: seq<Event>, peers: seq<DialEvidence.Peer>) {
    var ls := DialEvidence.Lives(rows);
    && DialEvidence.DialIds(rows) != [] && DialEvidence.PeersOk(peers)
    && (forall i :: 0 <= i < |ls| ==> WorldAgrees(ls[i], peers))
    && (forall i, j :: 0 <= i < j < |ls| ==> ls[i] != [] && ls[j] != [] && DialEvidence.Apart(ls[i], ls[j]))
    && forall d :: d in DialEvidence.DialIds(rows) ==> OneConnack(rows, peers, d)
  }

  function AttemptsIn(rows: seq<Event>, peers: seq<DialEvidence.Peer>): seq<DialEvidence.Attempt> {
    DialEvidence.AttemptsOf(DialEvidence.LifeIds(rows), DialEvidence.Lives(rows), DialEvidence.Making(peers))
  }

  predicate OneConnack(rows: seq<Event>, peers: seq<DialEvidence.Peer>, d: nat) {
    DialEvidence.Connacks(DialEvidence.OfDial(AttemptsIn(rows, peers), d)) <= 1
  }

  lemma LivesVerdict(s: State, peers: seq<DialEvidence.Peer>)
    requires WellFormed(s) && LogInv(s) && Complete(s) && Chronological(s.rows)
    ensures var ls := DialEvidence.Lives(s.rows);
            forall i :: 0 <= i < |ls| ==>
              (DialEvidence.Passing(DialOf(s.rows), peers)(ls[i]) <==> WorldAgrees(ls[i], peers))
  {
    var ls, ids := DialEvidence.Lives(s.rows), DialEvidence.LifeIds(s.rows);
    forall i | 0 <= i < |ls|
      ensures DialEvidence.Passing(DialOf(s.rows), peers)(ls[i]) <==> WorldAgrees(ls[i], peers)
    {
      assert ids[i] in ids;
      DialEvidence.LifeListed(s.rows, ids[i]);
      LifeVerdict(s, ids[i], peers);
      assert ls[i] == LifeRows(s.rows, ids[i]);
      assert DialEvidence.ResolutionOf(DialOf(s.rows), ls[i]) == DialRows(s.rows, ls[i][0].dial);
    }
  }

  lemma {:induction false} AttemptOfDial(attempts: seq<DialEvidence.Attempt>, i: nat)
    requires i < |attempts|
    ensures DialEvidence.OfDial(attempts, attempts[i].dial) != []
  {
    if i < |attempts| - 1 {
      AttemptOfDial(attempts[..|attempts| - 1], i);
    }
  }

  /** The log has an attempt for every successful resolution, so a dial can fail by its CONNACKs only. */
  lemma {:induction false} DialVerdict(s: State, peers: seq<DialEvidence.Peer>, d: nat)
    requires WellFormed(s) && LogInv(s) && Complete(s) && d in DialEvidence.DialIds(s.rows)
    ensures DialEvidence.DialAnswered(AttemptsIn(s.rows, peers), DialRows(s.rows, d), d) <==>
      OneConnack(s.rows, peers, d)
  {
    ResolversProduced(s);
    DialEvidence.DialListed(s.rows, d);
    if DialRows(s.rows, d)[0].rc == 0 {
      var ids := DialEvidence.LifeIds(s.rows);
      assert Tried(s.rows, d);
      var k :| k in ids && LifeRows(s.rows, k) != [] && LifeRows(s.rows, k)[0].dial == d;
      var i :| 0 <= i < |ids| && ids[i] == k;
      assert AttemptsIn(s.rows, peers)[i].dial == d;
      AttemptOfDial(AttemptsIn(s.rows, peers), i);
    }
  }

  lemma ProducedVerdict(s: State, peers: seq<DialEvidence.Peer>)
    requires WellFormed(s) && LogInv(s) && Complete(s) && Chronological(s.rows)
    ensures DialEvidence.Consistent(s.rows, peers) <==> WorldConsistent(s.rows, peers)
  {
    ResolversProduced(s);
    LivesVerdict(s, peers);
    forall d | d in DialEvidence.DialIds(s.rows)
      ensures DialEvidence.DialAnswered(AttemptsIn(s.rows, peers), DialRows(s.rows, d), d) <==>
        OneConnack(s.rows, peers, d)
    {
      DialVerdict(s, peers, d);
    }
    VerdictParts(s.rows, DialEvidence.Lives(s.rows), DialEvidence.Passing(DialOf(s.rows), peers), peers);
  }

  /**
   The correlator's verdict on the log of any proper, complete run depends on the world
   alone: on outcomes and times of the calls, accepts and peer events. Nothing that the
   recorder itself is responsible for can fail.
   */
  lemma {:induction false} OnlyTheWorldCanFail(capacity: nat, calls: seq<Call>, peers: seq<DialEvidence.Peer>)
    requires ProperRun(Start(capacity), calls) && TimelyRun(Start(capacity), calls)
        && Complete(Run(Start(capacity), calls))
    ensures var rows := Run(Start(capacity), calls).rows;
            DialEvidence.Consistent(rows, peers) <==> WorldConsistent(rows, peers)
  {
    StartOk(capacity);
    RunKeeps(Start(capacity), calls);
    RunTimely(Start(capacity), calls);
    ProducedVerdict(Run(Start(capacity), calls), peers);
  }

  lemma VerdictParts(rows: seq<Event>, ls: seq<seq<Event>>, passes: seq<Event> -> bool, peers: seq<DialEvidence.Peer>)
    requires forall i :: 0 <= i < |ls| ==> (passes(ls[i]) <==> WorldAgrees(ls[i], peers))
    ensures DialEvidence.LifetimesOk(ls, passes) <==>
      && (forall i :: 0 <= i < |ls| ==> WorldAgrees(ls[i], peers))
      && (forall i, j :: 0 <= i < j < |ls| ==> ls[i] != [] && ls[j] != [] && DialEvidence.Apart(ls[i], ls[j]))
  {
  }

  /** A lifetime whose connect and close carry the same time is refused, whatever the peers say. */
  lemma {:induction false} SameTickRefused(rows: seq<Event>, k: nat, peers: seq<DialEvidence.Peer>)
    requires LifeRows(rows, k) != [] && LifeRows(rows, k)[0].ns == DialEvidence.Last(LifeRows(rows, k)).ns
    ensures !DialEvidence.Consistent(rows, peers)
  {
    DialEvidence.LifeListed(rows, k);
    var ids := DialEvidence.LifeIds(rows);
    var i :| 0 <= i < |ids| && ids[i] == k;
    assert DialEvidence.Lives(rows)[i] == LifeRows(rows, k);
    assert !DialEvidence.Passing(DialOf(rows), peers)(LifeRows(rows, k));
  }

  lemma {:induction false} RunCons(s: State, call: Call, rest: seq<Call>)
    requires WellFormed(s)
    ensures Run(s, [call] + rest) == Run(Step(s, call), rest)
    ensures ProperRun(s, [call] + rest) <==> Proper(s, call) && ProperRun(Step(s, call), rest)
    ensures TimelyRun(s, [call] + rest) <==> Timely(s, call) && TimelyRun(Step(s, call), rest)
  {
    assert ([call] + rest)[1..] == rest;
  }

  function OneTick(here: Endpoint, there: Endpoint): seq<Call> {
    [GetAddrInfo(7, 0, 1, 7)]
    + ([Connect(3, true, there, 7, 0, 0, here)] + ([Close(3, 7, 0, 0, here)] + ([FreeAddrInfo(7, 1)] + [])))
  }

  function OneTickRows(here: Endpoint, there: Endpoint): seq<Event> {
    [Event(0, 7, 0, 1, -1, 3, 0, 0, 0, NOWHERE, NOWHERE)] + [Event(1, 7, 1, 1, 3, 0, 0, 0, 0, here, there)]
    + [Event(2, 7, 1, 1, 3, 2, 0, 0, 0, here, there)] + [Event(3, 7, 0, 1, -1, 4, 0, 0, 0, NOWHERE, NOWHERE)]
  }

  lemma OneTickBegins(capacity: nat, here: Endpoint, there: Endpoint)
    requires capacity >= 5
    ensures var dial, connect := GetAddrInfo(7, 0, 1, 7), Connect(3, true, there, 7, 0, 0, here);
            var b := Step(Start(capacity), dial);
            var c := Step(b, connect);
            && Proper(Start(capacity), dial) && Timely(Start(capacity), dial) && Proper(b, connect)
                && Timely(b, connect)
            && c.rows == OneTickRows(here, there)[..2] && c.total == 2 && c.capacity == capacity && !c.exited
            && c.activeDial == 1 && c.activeResolution == Some(1)
            && c.lives[3] == 1 && c.dials[3] == 1 && c.remotes[3] == there
            && forall fd :: 0 <= fd < FDS && fd != 3 ==> c.lives[fd] == 0
  {
  }

  lemma OneTickEnds(c: State, here: Endpoint, there: Endpoint)
    requires WellFormed(c) && c.rows == OneTickRows(here, there)[..2] && c.total == 2 && c.capacity >= 5 && !c.exited
    requires c.activeDial == 1 && c.activeResolution == Some(1) && c.lives[3] == 1 && c.dials[3] == 1
        && c.remotes[3] == there
    requires forall fd :: 0 <= fd < FDS && fd != 3 ==> c.lives[fd] == 0
    ensures var close, free := Close(3, 7, 0, 0, here), FreeAddrInfo(7, 1);
            var d := Step(c, close);
            var e := Step(d, free);
            && Proper(c, close) && Timely(c, close) && Proper(d, free) && Timely(d, free)
            && Complete(e) && e.rows == OneTickRows(here, there)
  {
    var d := Step(c, Close(3, 7, 0, 0, here));
    assert d.rows == OneTickRows(here, there)[..3];
    assert d.rows[1] in d.rows && HasAttempt(d.rows, 1);
  }

  lemma TwoRows(e0: Event, e1: Event)
    requires Resolves(e0) && !Resolves(e1) && e1.life == 1
    ensures LifeRows([e0] + [e1], 1) == [e1]
  {
    assert [] + [e0] == [e0];
    Appended([], e0, 1);
    Appended([e0], e1, 1);
  }

  lemma {:induction false} TwoMore(rows: seq<Event>, e1: Event, e2: Event, e3: Event)
    requires LifeRows(rows, 1) == [e1] && !Resolves(e2) && e2.life == 1 && Resolves(e3)
    ensures LifeRows(rows + [e2] + [e3], 1) == [e1] + [e2]
  {
    Appended(rows, e2, 1);
    Appended(rows + [e2], e3, 1);
  }

  lemma OneTickLife(here: Endpoint, there: Endpoint)
    ensures var l := LifeRows(OneTickRows(here, there), 1); |l| == 2 && l[0].ns == DialEvidence.Last(l).ns
  {
    var connect := Event(1, 7, 1, 1, 3, 0, 0, 0, 0, here, there);
    var dial := [Event(0, 7, 0, 1, -1, 3, 0, 0, 0, NOWHERE, NOWHERE)] + [connect];
    TwoRows(dial[0], connect);
    TwoMore(dial, connect, Event(2, 7, 1, 1, 3, 2, 0, 0, 0, here, there),
            Event(3, 7, 0, 1, -1, 4, 0, 0, 0, NOWHERE, NOWHERE));
  }

  /** A clock that is merely not set back is not enough: a whole proper run within one tick is refused. */
  lemma OneTickRefused(capacity: nat, here: Endpoint, there: Endpoint, peers: seq<DialEvidence.Peer>)
    requires capacity >= 5
    ensures var calls := OneTick(here, there);
            && ProperRun(Start(capacity), calls) && TimelyRun(Start(capacity), calls)
                && Complete(Run(Start(capacity), calls))
            && !DialEvidence.Consistent(Run(Start(capacity), calls).rows, peers)
  {
    var a := Start(capacity);
    var dial, connect, close, free := GetAddrInfo(7, 0, 1, 7), Connect(3, true, there, 7, 0, 0, here),
        Close(3, 7, 0, 0, here), FreeAddrInfo(7, 1);
    var b := Step(a, dial);
    var c := Step(b, connect);
    var d := Step(c, close);
    OneTickBegins(capacity, here, there);
    OneTickEnds(c, here, there);
    RunCons(d, free, []);
    RunCons(c, close, [free] + []);
    RunCons(b, connect, [close] + ([free] + []));
    RunCons(a, dial, [connect] + ([close] + ([free] + [])));
    OneTickLife(here, there);
    SameTickRefused(OneTickRows(here, there), 1, peers);
  }
}
