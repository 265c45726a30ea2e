/**
 The correlator (`correlate` in `tests/closure/dial_evidence.py`): it joins the
 observer's socket lifetimes to the peers accepted by the test endpoint, by TCP tuple
 and strict lifetime containment.
 */
module DialEvidence {
  import opened Optional
  import opened SocketObserver
  import opened ObserverLog

  datatype PeerKind = Accept(remote: Endpoint, local: Endpoint) | ConnectSeen | ConnackSeen | Closed | Other

  /** One line of the endpoint's ledger. */
  datatype Peer = Peer(index: nat, ns: int, name: string, kind: PeerKind)

  datatype Attempt = Attempt(life: nat, dial: nat, fd: int, error: Option<int>, peer: Option<string>,
      connack: Option<Peer>)

  datatype Report = Report(attempts: seq<Attempt>, matched: nat, excluded: int)

  // ---------- the buffer ----------

  datatype Footer = Footer(total: nat, lost: nat)

  /** Nothing was lost and no record is missing. */
  predicate BufferOk(rows: seq<Event>, footer: Footer) {
    footer.lost == 0 && footer.total == |rows| && forall i :: 0 <= i < |rows| ==> rows[i].index == i
  }

  /** `read_buffer`, after the lines have been parsed. */
  method ReadBuffer(rows: seq<Event>, footer: Footer) returns (ok: bool)
    ensures ok <==> BufferOk(rows, footer)
  {
    if footer.lost != 0 || footer.total != |rows| { return false; }
    for i := 0 to |rows|
      invariant forall j :: 0 <= j < i ==> rows[j].index == j
    {
      if rows[i].index != i { return false; }
    }
    ok := true;
  }

  // ---------- groupings ----------

  function LifeIds(rows: seq<Event>): seq<nat> {
    if rows == [] then []
    else
      var before, last := LifeIds(rows[..|rows| - 1]), rows[|rows| - 1];
      if Resolves(last) || last.life in before then before else before + [last.life]
  }

  function DialIds(rows: seq<Event>): seq<nat> {
    if rows == [] then []
    else
      var before, last := DialIds(rows[..|rows| - 1]), rows[|rows| - 1];
      if !Resolves(last) || last.dial in before then before else before + [last.dial]
  }

  lemma {:induction false} LifeListed(rows: seq<Event>, k: nat)
    ensures k in LifeIds(rows) <==> LifeRows(rows, k) != []
  {
    if rows != [] {
      LifeListed(rows[..|rows| - 1], k);
    }
  }

  lemma {:induction false} DialListed(rows: seq<Event>, k: nat)
    ensures k in DialIds(rows) <==> DialRows(rows, k) != []
  {
    if rows != [] {
      DialListed(rows[..|rows| - 1], k);
    }
  }

  function Accepts(peers: seq<Peer>): (s: seq<Peer>)
    ensures forall p :: p in s ==> p.kind.Accept? && p in peers
  {
    if peers == [] then []
    else
      var last := peers[|peers| - 1];
      Accepts(peers[..|peers| - 1]) + if last.kind.Accept? then [last] else []
  }

  function EventsOf(peers: seq<Peer>, name: string): seq<Peer> {
    if peers == [] then []
    else
      var last := peers[|peers| - 1];
      EventsOf(peers[..|peers| - 1], name) + if last.name == name then [last] else []
  }

  function OfKind(events: seq<Peer>, kind: PeerKind): seq<Peer> {
    if events == [] then []
    else
      var last := events[|events| - 1];
      OfKind(events[..|events| - 1], kind) + if last.kind == kind then [last] else []
  }

  // ---------- one lifetime ----------

  predicate Ordered(l: seq<Event>) { forall i :: 0 <= i < |l| - 1 ==> l[i].ns <= l[i + 1].ns }

  predicate PeerOrdered(l: seq<Peer>) { forall i :: 0 <= i < |l| - 1 ==> l[i].ns <= l[i + 1].ns }

  function Last(l: seq<Event>): Event
    requires l != []
  {
    l[|l| - 1]
  }

  /** The first successful SO_ERROR read: reading clears it, so later ones say nothing. */
  function FirstError(l: seq<Event>): Option<int> {
    if l == [] then None else if l[0].kind == 1 && l[0].rc == 0 then Some(l[0].soError) else FirstError(l[1..])
  }

  predicate InProgress(errno: int) { errno == 36 || errno == 115 }

  /** The numeric outcome of the TCP attempt: 0 is success. */
  function Completion(l: seq<Event>): Option<int>
    requires l != []
  {
    if l[0].rc == 0 then Some(0) else if !InProgress(l[0].error) then Some(l[0].error) else FirstError(l)
  }

  function Endpoints(l: seq<Event>): set<Endpoint> { set e | e in l && e.local.port != 0 :: e.local }

  /** Same TCP tuple, and accepted strictly inside the lifetime. */
  predicate Fits(l: seq<Event>, p: Peer)
    requires l != [] && p.kind.Accept?
  {
    p.kind.remote in Endpoints(l) && p.kind.local == l[0].remote && l[0].ns < p.ns < Last(l).ns
  }

  function Candidates(l: seq<Event>, accepts: seq<Peer>): (s: seq<Peer>)
    requires l != [] && forall p :: p in accepts ==> p.kind.Accept?
    ensures forall p :: p in s ==> p in accepts && Fits(l, p)
    ensures forall p :: p in accepts && Fits(l, p) ==> p in s
  {
    if accepts == [] then []
    else
      var last := accepts[|accepts| - 1];
      assert forall p :: p in accepts[..|accepts| - 1] ==> p in accepts;
      Candidates(l, accepts[..|accepts| - 1]) + if Fits(l, last) then [last] else []
  }

  /** Two lifetimes of one TCP tuple do not overlap. */
  predicate Apart(l: seq<Event>, m: seq<Event>)
    requires l != [] && m != []
  {
    forall e :: e in Endpoints(l) && e in Endpoints(m) && l[0].remote == m[0].remote ==>
      Last(l).ns <= m[0].ns || Last(m).ns <= l[0].ns
  }

  /** One connect, first, and one close, last; one descriptor and one dial throughout. */
  predicate WholeLife(l: seq<Event>) {
    && l != [] && l[0].kind == 0 && Last(l).kind == 2
    && (forall i :: 1 <= i < |l| ==> l[i].kind != 0) && (forall i :: 0 <= i < |l| - 1 ==> l[i].kind != 2)
    && (forall i :: 0 <= i < |l| ==> l[i].fd == l[0].fd && l[i].dial == l[0].dial)
  }

  /** The checks on the rows of one lifetime alone, and on its resolution. */
  predicate Structured(l: seq<Event>, resolution: seq<Event>) {
    WholeLife(l) && DialShape(resolution, false) && resolution[0].index < l[0].index < resolution[1].index
  }

  predicate Stages(events: seq<Peer>) {
    var connacks, connects := OfKind(events, ConnackSeen), OfKind(events, ConnectSeen);
    && |connacks| <= 1 && |connects| <= 1
    && (|connacks| == 1 ==> |connects| == 1 && connects[0].index < connacks[0].index)
  }

  /** Everything checked about one lifetime. */
  predicate LifeOk(l: seq<Event>, resolution: seq<Event>, peers: seq<Peer>) {
    && Structured(l, resolution) && Completion(l).Some? && l[0].ns < Last(l).ns && Ordered(l)
    && var fitting := Candidates(l, Accepts(peers));
       && |fitting| == (if Completion(l) == Some(0) then 1 else 0)
       && (fitting != [] ==> Stages(EventsOf(peers, fitting[0].name)))
  }

  /** An accepted peer runs from its accept to one close, with a clock that does not go back. */
  predicate PeerOk(peers: seq<Peer>, p: Peer) {
    var events := EventsOf(peers, p.name);
    && events != [] && events[0] == p && events[|events| - 1].kind.Closed? && |OfKind(events, Closed)| == 1
        && PeerOrdered(events)
  }

  /** The result line of one lifetime (a lifetime always has rows). */
  function AttemptOf(life: nat, l: seq<Event>, peers: seq<Peer>): Attempt {
    if l == [] then Attempt(life, 0, -1, None, None, None)
    else
      var fitting := Candidates(l, Accepts(peers));
      var connacks := if fitting == [] then [] else OfKind(EventsOf(peers, fitting[0].name), ConnackSeen);
      Attempt(life, l[0].dial, l[0].fd,
              if Completion(l).None? || Completion(l) == Some(0) then None else Completion(l),
              if fitting == [] then None else Some(fitting[0].name), if connacks == [] then None else Some(connacks[0]))
  }

  // ---------- unique matching ----------

  predicate NamesDistinct(accepts: seq<Peer>) {
    forall i, j :: 0 <= i < j < |accepts| ==> accepts[i].name != accepts[j].name
  }

  /**
   Two lifetimes that keep apart cannot fit the same accept, so the "peer reused"
   guard can never fire once the interval check has passed.
   */
  lemma NoReuse(l: seq<Event>, m: seq<Event>, p: Peer)
    requires l != [] && m != [] && p.kind.Accept? && Apart(l, m)
    ensures !(Fits(l, p) && Fits(m, p))
  {
  }

  lemma SameName(accepts: seq<Peer>, p: Peer, q: Peer)
    requires NamesDistinct(accepts) && p in accepts && q in accepts && p.name == q.name
    ensures p == q
  {
    var i :| 0 <= i < |accepts| && accepts[i] == p;
    var j :| 0 <= j < |accepts| && accepts[j] == q;
    assert i == j;
  }

  /** All lifetimes, in the order of the log. */
  function Lives(sockets: seq<Event>): (ls: seq<seq<Event>>)
    ensures |ls| == |LifeIds(sockets)| && forall i :: 0 <= i < |ls| ==> ls[i] == LifeRows(sockets, LifeIds(sockets)[i])
  {
    var ids := LifeIds(sockets);
    seq(|ids|, i requires 0 <= i < |ids| => LifeRows(sockets, ids[i]))
  }

  ghost predicate ResolversOk(sockets: seq<Event>) {
    DialIds(sockets) != [] && forall d :: d in DialIds(sockets) ==> d > 0 && DialShape(DialRows(sockets, d), false)
  }

  ghost predicate PeersOk(peers: seq<Peer>) {
    NamesDistinct(Accepts(peers)) && forall p :: p in Accepts(peers) ==> PeerOk(peers, p)
  }

  /** The rows of a resolution, if there are any. */
  function ResolutionOf(g: Grouping, l: seq<Event>): seq<Event> { if l == [] then [] else g(l[0].dial) }

  /** A lifetime passes on its own, given its resolution and the peers. */
  function Passing(g: Grouping, peers: seq<Peer>): seq<Event> -> bool {
    l => l != [] && LifeOk(l, ResolutionOf(g, l), peers)
  }

  function Making(peers: seq<Peer>): (nat, seq<Event>) -> Attempt {
    (life: nat, l: seq<Event>) => AttemptOf(life, l, peers)
  }

  /** Every lifetime passes, and no two of one TCP tuple overlap. */
  predicate LifetimesOk(ls: seq<seq<Event>>, passes: seq<Event> -> bool) {
    && (forall i :: 0 <= i < |ls| ==> passes(ls[i]))
    && (forall i, j :: 0 <= i < j < |ls| ==> ls[i] != [] && ls[j] != [] && Apart(ls[i], ls[j]))
  }

  function AttemptsOf(ids: seq<nat>, ls: seq<seq<Event>>, make: (nat, seq<Event>) -> Attempt): (s: seq<Attempt>)
    requires |ids| == |ls|
    ensures |s| == |ls| && forall i :: 0 <= i < |ls| ==> s[i] == make(ids[i], ls[i])
  {
    seq(|ls|, i requires 0 <= i < |ls| => make(ids[i], ls[i]))
  }

  function OfDial(attempts: seq<Attempt>, dial: nat): seq<Attempt> {
    if attempts == [] then []
    else
      var last := attempts[|attempts| - 1];
      OfDial(attempts[..|attempts| - 1], dial) + if last.dial == dial then [last] else []
  }

  function Connacks(attempts: seq<Attempt>): nat {
    if attempts == [] then 0
    else Connacks(attempts[..|attempts| - 1]) + if attempts[|attempts| - 1].connack.Some? then 1 else 0
  }

  /** One logical dial: at most one CONNACK, and a successful resolution was tried. */
  predicate DialAnswered(attempts: seq<Attempt>, resolution: seq<Event>, dial: nat) {
    && Connacks(OfDial(attempts, dial)) <= 1
    && (OfDial(attempts, dial) != [] || (resolution != [] && resolution[0].rc != 0))
  }

  ghost predicate AllAnswered(attempts: seq<Attempt>, resolutions: Grouping, dials: seq<nat>) {
    forall d :: d in dials ==> DialAnswered(attempts, resolutions(d), d)
  }

  /** Everything the correlator demands of the two logs. The "peer reused" guard is not among it: it is implied. */
  ghost predicate Consistent(sockets: seq<Event>, peers: seq<Peer>) {
    && ResolversOk(sockets) && PeersOk(peers) && LifetimesOk(Lives(sockets), Passing(DialOf(sockets), peers))
    && AllAnswered(AttemptsOf(LifeIds(sockets), Lives(sockets), Making(peers)), DialOf(sockets), DialIds(sockets))
  }

  function Matched(attempts: seq<Attempt>): nat {
    if attempts == [] then 0 else Matched(attempts[..|attempts| - 1]) + if attempts[|attempts| - 1].peer.Some? then 1
        else 0
  }

  lemma {:induction false} OnlyFit(l: seq<Event>, accepts: seq<Peer>, p: Peer)
    requires l != [] && NamesDistinct(accepts) && (forall q :: q in accepts ==> q.kind.Accept?) && p in accepts
    requires |Candidates(l, accepts)| <= 1
    ensures Fits(l, p) <==> |Candidates(l, accepts)| == 1 && Candidates(l, accepts)[0].name == p.name
  {
    var fitting := Candidates(l, accepts);
    if |fitting| == 1 && fitting[0].name == p.name {
      assert fitting[0] in fitting;
      SameName(accepts, fitting[0], p);
    }
  }

  /**
   Unique matching: in consistent logs a lifetime is matched exactly when its TCP attempt
   succeeded, it fits exactly the accept it is matched to, and an accept fits no two
   lifetimes; so tuple and containment admit no other assignment.
   */
  lemma {:induction false} UniqueMatching(ls: seq<seq<Event>>, resolutions: Grouping, peers: seq<Peer>, i: nat,
      p: Peer, life: nat)
    requires PeersOk(peers) && LifetimesOk(ls, Passing(resolutions, peers)) && i < |ls| && p in Accepts(peers)
    ensures forall j :: 0 <= j < |ls| ==> ls[j] != []
    ensures var a := AttemptOf(life, ls[i], peers);
            && (Fits(ls[i], p) <==> a.peer == Some(p.name))
            && (a.peer.Some? <==> Completion(ls[i]) == Some(0))
    ensures forall j :: 0 <= j < |ls| && j != i && Fits(ls[i], p) ==> !Fits(ls[j], p)
  {
    var l := ls[i];
    assert forall j :: 0 <= j < |ls| ==> Passing(resolutions, peers)(ls[j]) && ls[j] != [];
    assert LifeOk(l, ResolutionOf(resolutions, l), peers);
    OnlyFit(l, Accepts(peers), p);
    forall j | 0 <= j < |ls| && j != i && Fits(l, p) ensures !Fits(ls[j], p) {
      if i < j {
        NoReuse(l, ls[j], p);
      } else {
        NoReuse(ls[j], l, p);
      }
    }
  }

  /** An accept that lies inside no lifetime of its tuple. */
  predicate Unmatched(p: Peer, ls: seq<seq<Event>>) {
    forall i :: 0 <= i < |ls| && ls[i] != [] && p.kind.Accept? ==> !Fits(ls[i], p)
  }

  function Count(accepts: seq<Peer>, f: Peer -> bool): nat {
    if accepts == [] then 0 else Count(accepts[..|accepts| - 1], f) + if f(accepts[|accepts| - 1]) then 1 else 0
  }

  function CountUnmatched(accepts: seq<Peer>, ls: seq<seq<Event>>): nat { Count(accepts, p => Unmatched(p, ls)) }

  /** A set of names and the accepts whose name is not in it add up to all accepts. */
  lemma {:induction false} NamedAndOthers(accepts: seq<Peer>, f: Peer -> bool, names: set<string>)
    requires NamesDistinct(accepts)
    requires forall n :: n in names ==> exists p :: p in accepts && p.name == n
    requires forall p :: p in accepts ==> (p.name in names <==> !f(p))
    ensures |names| + Count(accepts, f) == |accepts|
  {
    if accepts == [] {
      assert names == {};
    } else {
      var k := |accepts| - 1;
      var front, last, others := accepts[..k], accepts[k], names - {accepts[k].name};
      Fronts(accepts);
      forall n | n in others ensures exists p :: p in front && p.name == n {
        var p :| p in accepts && p.name == n;
        InFront(accepts, p);
      }
      NamedAndOthers(front, f, others);
      OneFewer(names, last.name);
    }
  }

  lemma Fronts(accepts: seq<Peer>)
    requires accepts != [] && NamesDistinct(accepts)
    ensures NamesDistinct(accepts[..|accepts| - 1]) && accepts[|accepts| - 1] in accepts
    ensures forall p :: p in accepts[..|accepts| - 1] ==> p in accepts && p.name != accepts[|accepts| - 1].name
  {
  }

  lemma InFront(accepts: seq<Peer>, p: Peer)
    requires p in accepts && p.name != accepts[|accepts| - 1].name
    ensures p in accepts[..|accepts| - 1]
  {
    var i :| 0 <= i < |accepts| && accepts[i] == p;
    assert accepts[..|accepts| - 1][i] == p;
  }

  lemma OneFewer(names: set<string>, n: string)
    ensures |names| == |names - {n}| + if n in names then 1 else 0
  {
    if n in names {
      assert names == (names - {n}) + {n};
    } else {
      assert names == names - {n};
    }
  }

  // ---------- the correlator ----------

  ghost predicate GroupedBy(m: map<nat, seq<Event>>, g: Grouping) {
    forall k: nat :: (k in m <==> g(k) != []) && (k in m ==> m[k] == g(k))
  }

  /** `groups.setdefault(key, []).append(row)`. */
  function Join(m: map<nat, seq<Event>>, key: nat, row: Event): map<nat, seq<Event>> {
    m[key := (if key in m then m[key] else []) + [row]]
  }

  lemma Joins(m: map<nat, seq<Event>>, g: Grouping, h: Grouping, key: nat, row: Event)
    requires GroupedBy(m, g) && forall k: nat :: h(k) == if k == key then g(k) + [row] else g(k)
    ensures GroupedBy(Join(m, key, row), h)
  {
    forall k: nat ensures (k in Join(m, key, row) <==> h(k) != [])
        && (k in Join(m, key, row) ==> Join(m, key, row)[k] == h(k)) {
      if k == key {
        assert h(k) == g(k) + [row];
        assert g(k) == if k in m then m[k] else [];
      }
    }
  }

  lemma {:induction false} Grown(before: seq<Event>, row: Event)
    ensures var more := before + [row];
      && (forall k: nat :: LifeOf(more)(k) == if !Resolves(row) && row.life == k then LifeOf(before)(k) + [row]
          else LifeOf(before)(k))
      && (forall d: nat :: DialOf(more)(d) == if Resolves(row) && row.dial == d then DialOf(before)(d) + [row]
          else DialOf(before)(d))
      && LifeIds(more) == (if Resolves(row) || row.life in LifeIds(before) then LifeIds(before)
          else LifeIds(before) + [row.life])
      && DialIds(more) == (if !Resolves(row) || row.dial in DialIds(before) then DialIds(before)
          else DialIds(before) + [row.dial])
  {
    var more := before + [row];
    assert more[..|before|] == before;
    forall k: nat
      ensures LifeOf(more)(k) == if !Resolves(row) && row.life == k then LifeOf(before)(k) + [row]
          else LifeOf(before)(k)
      ensures DialOf(more)(k) == if Resolves(row) && row.dial == k then DialOf(before)(k) + [row] else DialOf(before)(k)
    {
      Appended(before, row, k);
    }
  }

  ghost predicate Groups(rows: seq<Event>, lives: map<nat, seq<Event>>, ids: seq<nat>,
      resolutions: map<nat, seq<Event>>, dials: seq<nat>) {
    ids == LifeIds(rows) && dials == DialIds(rows) && GroupedBy(lives, LifeOf(rows))
        && GroupedBy(resolutions, DialOf(rows))
  }

  lemma Stays(m: map<nat, seq<Event>>, g: Grouping, h: Grouping)
    requires GroupedBy(m, g) && forall k: nat :: h(k) == g(k)
    ensures GroupedBy(m, h)
  {
  }

  lemma LifeGrouped(before: seq<Event>, row: Event, lives: map<nat, seq<Event>>, ids: seq<nat>,
      resolutions: map<nat, seq<Event>>, dials: seq<nat>)
    requires Groups(before, lives, ids, resolutions, dials) && !Resolves(row)
    ensures Groups(before + [row], Join(lives, row.life, row), if row.life in lives then ids else ids + [row.life],
        resolutions, dials)
  {
    var more := before + [row];
    Grown(before, row);
    LifeListed(before, row.life);
    assert row.life in lives <==> LifeOf(before)(row.life) != [];
    Joins(lives, LifeOf(before), LifeOf(more), row.life, row);
    Stays(resolutions, DialOf(before), DialOf(more));
  }

  lemma ResolutionGrouped(before: seq<Event>, row: Event, lives: map<nat, seq<Event>>, ids: seq<nat>,
      resolutions: map<nat, seq<Event>>, dials: seq<nat>)
    requires Groups(before, lives, ids, resolutions, dials) && Resolves(row)
    ensures Groups(before + [row], lives, ids, Join(resolutions, row.dial, row),
        if row.dial in resolutions then dials else dials + [row.dial])
  {
    var more := before + [row];
    Grown(before, row);
    DialListed(before, row.dial);
    assert row.dial in resolutions <==> DialOf(before)(row.dial) != [];
    Joins(resolutions, DialOf(before), DialOf(more), row.dial, row);
    Stays(lives, LifeOf(before), LifeOf(more));
  }

  /** The grouping loop: rows by lifetime and by resolution, each in order of first appearance. */
  method Group(sockets: seq<Event>)
      returns (lives: map<nat, seq<Event>>, ids: seq<nat>, resolutions: map<nat, seq<Event>>, dials: seq<nat>)
    ensures Groups(sockets, lives, ids, resolutions, dials)
  {
    lives, ids, resolutions, dials := map[], [], map[], [];
    for i := 0 to |sockets|
      invariant Groups(sockets[..i], lives, ids, resolutions, dials)
    {
      var row := sockets[i];
      assert sockets[..i + 1] == sockets[..i] + [row];
      if Resolves(row) {
        ResolutionGrouped(sockets[..i], row, lives, ids, resolutions, dials);
        if row.dial !in resolutions { dials := dials + [row.dial]; }
        resolutions := Join(resolutions, row.dial, row);
      } else {
        LifeGrouped(sockets[..i], row, lives, ids, resolutions, dials);
        if row.life !in lives { ids := ids + [row.life]; }
        lives := Join(lives, row.life, row);
      }
    }
    assert sockets[..|sockets|] == sockets;
  }

  method CheckNames(accepts: seq<Peer>) returns (ok: bool)
    ensures ok <==> NamesDistinct(accepts)
  {
    var names: set<string> := {};
    for i := 0 to |accepts|
      invariant forall n :: n in names <==> exists j :: 0 <= j < i && accepts[j].name == n
      invariant forall j, k :: 0 <= j < k < i ==> accepts[j].name != accepts[k].name
    {
      if accepts[i].name in names { return false; }
      names := names + {accepts[i].name};
    }
    ok := true;
  }

  method CheckPeers(peers: seq<Peer>) returns (ok: bool)
    ensures ok <==> PeersOk(peers)
  {
    var accepts := Accepts(peers);
    ok := CheckNames(accepts);
    if ok {
      ok := EachPeer(peers, accepts);
    }
  }

  method EachPeer(peers: seq<Peer>, accepts: seq<Peer>) returns (ok: bool)
    ensures ok <==> forall p :: p in accepts ==> PeerOk(peers, p)
  {
    for i := 0 to |accepts|
      invariant forall j :: 0 <= j < i ==> PeerOk(peers, accepts[j])
    {
      var good := PeerOk(peers, accepts[i]);
      if !good {
        assert accepts[i] in accepts;
        return false;
      }
    }
    ok := true;
  }

  predicate Resolved(resolutions: map<nat, seq<Event>>, dials: seq<nat>)
    requires forall d :: d in dials ==> d in resolutions
  {
    dials != [] && forall d :: d in dials ==> d > 0 && DialShape(resolutions[d], false)
  }

  method CheckResolvers(resolutions: map<nat, seq<Event>>, dials: seq<nat>) returns (ok: bool)
    requires forall d :: d in dials ==> d in resolutions
    ensures ok <==> Resolved(resolutions, dials)
  {
    for i := 0 to |dials|
      invariant forall j :: 0 <= j < i ==> dials[j] > 0 && DialShape(resolutions[dials[j]], false)
    {
      if dials[i] == 0 || !DialShape(resolutions[dials[i]], false) {
        assert dials[i] in dials;
        return false;
      }
    }
    ok := dials != [];
  }

  /** The names of the accepts matched so far. */
  function MatchedNames(attempts: seq<Attempt>): set<string> { set a | a in attempts && a.peer.Some? :: a.peer.value }

  /** The reuse guard stays idle: an accept matched before is not the match of a lifetime that keeps apart. */
  lemma GuardIdle(ids: seq<nat>, ls: seq<seq<Event>>, l: seq<Event>, peers: seq<Peer>, life: nat)
    requires PeersOk(peers) && |ids| == |ls| && l != [] && (forall i :: 0 <= i < |ls| ==> ls[i] != [])
    requires forall i :: 0 <= i < |ls| ==> Apart(ls[i], l)
    ensures var a := AttemptOf(life, l, peers);
        a.peer.Some? ==> a.peer.value !in MatchedNames(AttemptsOf(ids, ls, Making(peers)))
  {
    var a := AttemptOf(life, l, peers);
    if a.peer.Some? {
      forall i | 0 <= i < |ls| ensures AttemptOf(ids[i], ls[i], peers).peer != a.peer {
        TwoMatches(l, ls[i], peers, life, ids[i]);
      }
    }
  }

  lemma TwoMatches(l: seq<Event>, m: seq<Event>, peers: seq<Peer>, life: nat, other: nat)
    requires PeersOk(peers) && l != [] && m != [] && Apart(m, l)
    ensures AttemptOf(life, l, peers).peer.Some? ==> AttemptOf(other, m, peers).peer != AttemptOf(life, l, peers).peer
  {
    var mine, yours := Candidates(l, Accepts(peers)), Candidates(m, Accepts(peers));
    if mine != [] && yours != [] {
      assert mine[0] in Accepts(peers) && yours[0] in Accepts(peers);
      if yours[0].name == mine[0].name {
        SameName(Accepts(peers), yours[0], mine[0]);
        NoReuse(m, l, mine[0]);
      }
    }
  }

  method ApartFromAll(l: seq<Event>, ls: seq<seq<Event>>) returns (ok: bool)
    requires l != [] && forall i :: 0 <= i < |ls| ==> ls[i] != []
    ensures ok <==> forall i :: 0 <= i < |ls| ==> Apart(ls[i], l)
  {
    for i := 0 to |ls|
      invariant forall j :: 0 <= j < i ==> Apart(ls[j], l)
    {
      var apart := Apart(ls[i], l);
      if !apart { return false; }
    }
    ok := true;
  }

  /** What the loop over lifetimes has established after `n` of them. */
  ghost predicate Passed(ids: seq<nat>, ls: seq<seq<Event>>, n: nat, passes: seq<Event> -> bool,
      make: (nat, seq<Event>) -> Attempt, attempts: seq<Attempt>, matched: set<string>)
    requires n <= |ids| == |ls|
  {
    && LifetimesOk(ls[..n], passes) && attempts == AttemptsOf(ids[..n], ls[..n], make)
    && matched == MatchedNames(attempts) && |matched| == Matched(attempts)
  }

  lemma PassMore(ids: seq<nat>, ls: seq<seq<Event>>, n: nat, passes: seq<Event> -> bool,
      make: (nat, seq<Event>) -> Attempt, attempts: seq<Attempt>, matched: set<string>, a: Attempt)
    requires n < |ids| == |ls| && (forall i :: 0 <= i <= n ==> ls[i] != [])
        && Passed(ids, ls, n, passes, make, attempts, matched)
    requires passes(ls[n]) && (forall i :: 0 <= i < n ==> Apart(ls[i], ls[n]))
    requires a == make(ids[n], ls[n]) && (a.peer.Some? ==> a.peer.value !in matched)
    ensures Passed(ids, ls, n + 1, passes, make, attempts + [a], if a.peer.Some? then matched + {a.peer.value}
        else matched)
  {
    LivesMore(ls, n, passes);
    OneMoreAttempt(attempts, a);
    AttemptsMore(ids, ls, n, make);
  }

  lemma LivesMore(ls: seq<seq<Event>>, n: nat, passes: seq<Event> -> bool)
    requires n < |ls| && (forall i :: 0 <= i <= n ==> ls[i] != []) && LifetimesOk(ls[..n], passes)
    requires passes(ls[n]) && (forall i :: 0 <= i < n ==> Apart(ls[i], ls[n]))
    ensures LifetimesOk(ls[..n + 1], passes)
  {
    var before, more := ls[..n], ls[..n + 1];
    assert forall i :: 0 <= i < n ==> more[i] == before[i] == ls[i];
    assert more[n] == ls[n];
  }

  lemma AttemptsMore(ids: seq<nat>, ls: seq<seq<Event>>, n: nat, make: (nat, seq<Event>) -> Attempt)
    requires n < |ids| == |ls|
    ensures AttemptsOf(ids[..n + 1], ls[..n + 1], make) == AttemptsOf(ids[..n], ls[..n], make) + [make(ids[n], ls[n])]
  {
  }

  /** The loop over lifetimes, with its interval check and its reuse guard. */
  method CheckLives(ids: seq<nat>, ls: seq<seq<Event>>, resolutions: map<nat, seq<Event>>, ghost g: Grouping,
      peers: seq<Peer>)
    returns (ok: bool, attempts: seq<Attempt>, matched: set<string>)
    requires |ids| == |ls| && (forall i :: 0 <= i < |ls| ==> ls[i] != []) && PeersOk(peers) && GroupedBy(resolutions, g)
    ensures ok <==> LifetimesOk(ls, Passing(g, peers))
    ensures ok ==> attempts == AttemptsOf(ids, ls, Making(peers))
    ensures ok ==> matched == MatchedNames(attempts) && |matched| == Matched(attempts)
  {
    attempts, matched := [], {};
    ghost var passes, make := Passing(g, peers), Making(peers);
    for n := 0 to |ls|
      invariant Passed(ids, ls, n, passes, make, attempts, matched)
    {
      var good, apart, a, reused := CheckLife(ids, ls, n, resolutions, g, peers, attempts, matched);
      if !good || !apart || reused {
        NotAll(ls, n, passes);
        return false, attempts, matched;
      }
      PassMore(ids, ls, n, passes, make, attempts, matched, a);
      matched := if a.peer.Some? then matched + {a.peer.value} else matched;
      attempts := attempts + [a];
    }
    PassedAll(ids, ls, passes, make, attempts, matched);
    ok := true;
  }

  lemma NotAll(ls: seq<seq<Event>>, n: nat, passes: seq<Event> -> bool)
    requires n < |ls| && (forall i :: 0 <= i < |ls| ==> ls[i] != [])
    requires !passes(ls[n]) || exists i :: 0 <= i < n && !Apart(ls[i], ls[n])
    ensures !LifetimesOk(ls, passes)
  {
  }

  lemma {:induction false} PassedAll(ids: seq<nat>, ls: seq<seq<Event>>, passes: seq<Event> -> bool,
      make: (nat, seq<Event>) -> Attempt, attempts: seq<Attempt>, matched: set<string>)
    requires |ids| == |ls| && Passed(ids, ls, |ls|, passes, make, attempts, matched)
    ensures LifetimesOk(ls, passes) && attempts == AttemptsOf(ids, ls, make)
    ensures matched == MatchedNames(attempts) && |matched| == Matched(attempts)
  {
    assert ls[..|ls|] == ls && ids[..|ls|] == ids;
  }

  method CheckLife(ids: seq<nat>, ls: seq<seq<Event>>, n: nat, resolutions: map<nat, seq<Event>>, ghost g: Grouping,
      peers: seq<Peer>, attempts: seq<Attempt>, matched: set<string>)
    returns (good: bool, apart: bool, a: Attempt, reused: bool)
    requires n < |ids| == |ls| && (forall i :: 0 <= i < |ls| ==> ls[i] != []) && PeersOk(peers)
        && GroupedBy(resolutions, g)
    requires attempts == AttemptsOf(ids[..n], ls[..n], Making(peers)) && matched == MatchedNames(attempts)
    ensures good <==> Passing(g, peers)(ls[n])
    ensures apart <==> forall i :: 0 <= i < n ==> Apart(ls[i], ls[n])
    ensures a == Making(peers)(ids[n], ls[n])
    ensures reused == (a.peer.Some? && a.peer.value in matched) && (apart ==> !reused)
  {
    var l := ls[n];
    var resolution := if l[0].dial in resolutions then resolutions[l[0].dial] else [];
    assert resolution == ResolutionOf(g, l);
    good := LifeOk(l, resolution, peers);
    apart := ApartFromAll(l, ls[..n]);
    a := AttemptOf(ids[n], l, peers);
    reused := a.peer.Some? && a.peer.value in matched;
    if apart {
      GuardIdle(ids[..n], ls[..n], l, peers, ids[n]);
    }
    assert forall i :: 0 <= i < n ==> ls[..n][i] == ls[i];
  }

  lemma {:induction false} OneMoreAttempt(attempts: seq<Attempt>, a: Attempt)
    ensures MatchedNames(attempts + [a]) == if a.peer.Some? then MatchedNames(attempts) + {a.peer.value}
        else MatchedNames(attempts)
    ensures Matched(attempts + [a]) == Matched(attempts) + if a.peer.Some? then 1 else 0
  {
    var more := attempts + [a];
    assert more[..|attempts|] == attempts;
    assert forall x :: x in more <==> x in attempts || x == a;
  }

  method CheckAnswers(attempts: seq<Attempt>, resolutions: map<nat, seq<Event>>, dials: seq<nat>) returns (ok: bool)
    requires forall d :: d in dials ==> d in resolutions
    ensures ok <==> forall d :: d in dials ==> DialAnswered(attempts, resolutions[d], d)
  {
    for i := 0 to |dials|
      invariant forall j :: 0 <= j < i ==> DialAnswered(attempts, resolutions[dials[j]], dials[j])
    {
      var answered := DialAnswered(attempts, resolutions[dials[i]], dials[i]);
      if !answered {
        assert dials[i] in dials;
        return false;
      }
    }
    ok := true;
  }

  /** The report: one attempt a lifetime, and every accept either matched or excluded as fitting none. */
  ghost predicate Answers(r: Report, ids: seq<nat>, ls: seq<seq<Event>>, peers: seq<Peer>)
    requires |ids| == |ls|
  {
    && r.attempts == AttemptsOf(ids, ls, Making(peers)) && r.matched == Matched(r.attempts)
    && r.excluded == CountUnmatched(Accepts(peers), ls) && r.matched + r.excluded == |Accepts(peers)|
  }

  /** `correlate`: it returns exactly for consistent logs, with the one possible matching. */
  method Correlate(sockets: seq<Event>, peers: seq<Peer>) returns (r: Option<Report>)
    ensures r.Some? <==> Consistent(sockets, peers)
    ensures r.Some? ==> Answers(r.value, LifeIds(sockets), Lives(sockets), peers)
  {
    var lives, ids, resolutions, dials := Group(sockets);
    Listed(sockets, lives, ids, resolutions, dials);
    var resolved := CheckResolvers(resolutions, dials);
    ResolversAre(sockets, resolutions, dials);
    if !resolved { return None; }
    var accepted := CheckPeers(peers);
    if !accepted { return None; }
    var ls := seq(|ids|, i requires 0 <= i < |ids| => lives[ids[i]]);
    LivesAre(sockets, lives, ids, ls);
    r := Match(ids, ls, resolutions, dials, DialOf(sockets), peers);
  }

  lemma ResolversAre(sockets: seq<Event>, resolutions: map<nat, seq<Event>>, dials: seq<nat>)
    requires dials == DialIds(sockets)
    requires forall d :: d in dials ==> d in resolutions && resolutions[d] == DialRows(sockets, d)
    ensures Resolved(resolutions, dials) <==> ResolversOk(sockets)
  {
  }

  lemma LivesAre(sockets: seq<Event>, lives: map<nat, seq<Event>>, ids: seq<nat>, ls: seq<seq<Event>>)
    requires ids == LifeIds(sockets) && |ls| == |ids|
    requires forall k :: k in ids ==> k in lives && lives[k] == LifeRows(sockets, k) != []
    requires forall i :: 0 <= i < |ids| ==> ls[i] == lives[ids[i]]
    ensures ls == Lives(sockets) && forall i :: 0 <= i < |ls| ==> ls[i] != []
  {
  }

  /** The second half: lifetimes against peers, then logical dials. */
  method Match(ids: seq<nat>, ls: seq<seq<Event>>, resolutions: map<nat, seq<Event>>, dials: seq<nat>,
      ghost g: Grouping, peers: seq<Peer>)
    returns (r: Option<Report>)
    requires |ids| == |ls| && (forall i :: 0 <= i < |ls| ==> ls[i] != []) && PeersOk(peers) && GroupedBy(resolutions, g)
    requires forall d :: d in dials ==> d in resolutions && resolutions[d] == g(d)
    ensures r.Some? <==>
      && LifetimesOk(ls, Passing(g, peers))
      && AllAnswered(AttemptsOf(ids, ls, Making(peers)), g, dials)
    ensures r.Some? ==> Answers(r.value, ids, ls, peers)
  {
    var ok, attempts, matched := CheckLives(ids, ls, resolutions, g, peers);
    if !ok { return None; }
    var answered := CheckAnswers(attempts, resolutions, dials);
    if !answered { return None; }
    NamesMatch(ids, ls, g, peers);
    NamedAndOthers(Accepts(peers), p => Unmatched(p, ls), matched);
    r := Some(Report(attempts, |matched|, |Accepts(peers)| - |matched|));
  }

  lemma {:induction false} Listed(sockets: seq<Event>, lives: map<nat, seq<Event>>, ids: seq<nat>,
      resolutions: map<nat, seq<Event>>, dials: seq<nat>)
    requires Groups(sockets, lives, ids, resolutions, dials)
    ensures forall k :: k in ids ==> k in lives && lives[k] == LifeRows(sockets, k) != []
    ensures forall d :: d in dials ==> d in resolutions && resolutions[d] == DialRows(sockets, d)
  {
    forall k | k in ids ensures k in lives && lives[k] == LifeRows(sockets, k) != [] {
      LifeListed(sockets, k);
      assert LifeOf(sockets)(k) != [];
    }
    forall d | d in dials ensures d in resolutions && resolutions[d] == DialRows(sockets, d) {
      DialListed(sockets, d);
      assert DialOf(sockets)(d) != [];
    }
  }

  lemma {:induction false} NameOfFit(ids: seq<nat>, ls: seq<seq<Event>>, g: Grouping, peers: seq<Peer>, p: Peer)
    requires |ids| == |ls| && PeersOk(peers) && LifetimesOk(ls, Passing(g, peers)) && p in Accepts(peers)
    ensures p.name in MatchedNames(AttemptsOf(ids, ls, Making(peers))) <==> !Unmatched(p, ls)
  {
    var attempts := AttemptsOf(ids, ls, Making(peers));
    forall i | 0 <= i < |ls| ensures ls[i] != [] && (Fits(ls[i], p) <==> attempts[i].peer == Some(p.name)) {
      UniqueMatching(ls, g, peers, i, p, ids[i]);
    }
    InNames(attempts, ls, p);
  }

  lemma InNames(attempts: seq<Attempt>, ls: seq<seq<Event>>, p: Peer)
    requires |attempts| == |ls| && p.kind.Accept?
    requires forall i :: 0 <= i < |ls| ==> ls[i] != [] && (Fits(ls[i], p) <==> attempts[i].peer == Some(p.name))
    ensures p.name in MatchedNames(attempts) <==> !Unmatched(p, ls)
  {
    if p.name in MatchedNames(attempts) {
      var a :| a in attempts && a.peer == Some(p.name);
      var i :| 0 <= i < |attempts| && attempts[i] == a;
      assert Fits(ls[i], p);
    }
    if !Unmatched(p, ls) {
      var i :| 0 <= i < |ls| && Fits(ls[i], p);
      assert attempts[i] in attempts && attempts[i].peer == Some(p.name);
    }
  }

  lemma NameOfAccept(ids: seq<nat>, ls: seq<seq<Event>>, peers: seq<Peer>, n: string)
    requires |ids| == |ls| && n in MatchedNames(AttemptsOf(ids, ls, Making(peers)))
    ensures exists p :: p in Accepts(peers) && p.name == n
  {
    var attempts := AttemptsOf(ids, ls, Making(peers));
    var a :| a in attempts && a.peer == Some(n);
    var i :| 0 <= i < |attempts| && attempts[i] == a;
    NamedCandidate(ls[i], peers, ids[i]);
  }

  /** The matched names are the names of exactly the accepts that fit a lifetime. */
  lemma {:induction false} NamesMatch(ids: seq<nat>, ls: seq<seq<Event>>, g: Grouping, peers: seq<Peer>)
    requires |ids| == |ls| && PeersOk(peers) && LifetimesOk(ls, Passing(g, peers))
    ensures forall n :: n in MatchedNames(AttemptsOf(ids, ls, Making(peers))) ==>
      exists p :: p in Accepts(peers) && p.name == n
    ensures forall p :: p in Accepts(peers) ==>
      (p.name in MatchedNames(AttemptsOf(ids, ls, Making(peers))) <==> !Unmatched(p, ls))
  {
    var attempts := AttemptsOf(ids, ls, Making(peers));
    forall n | n in MatchedNames(attempts) ensures exists p :: p in Accepts(peers) && p.name == n {
      NameOfAccept(ids, ls, peers, n);
    }
    forall p | p in Accepts(peers) ensures p.name in MatchedNames(attempts) <==> !Unmatched(p, ls) {
      NameOfFit(ids, ls, g, peers, p);
    }
  }

  lemma {:induction false} NamedCandidate(l: seq<Event>, peers: seq<Peer>, life: nat)
    ensures var a := AttemptOf(life, l, peers);
        a.peer.Some? ==> exists p :: p in Accepts(peers) && p.name == a.peer.value
  {
    if l != [] && Candidates(l, Accepts(peers)) != [] {
      assert Candidates(l, Accepts(peers))[0] in Accepts(peers);
    }
  }
}
