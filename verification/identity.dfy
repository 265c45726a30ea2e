/** Stock wrapper for values that may be absent. */
module Optional {
  datatype Option<+T> = None | Some(value: T)
}

/**
 The durable identity that fences one outbox file to one logical MQTT session.
 The client (`client.mbt`) and the operator tool (`scripts/durable_recovery.py`)
 print it independently; every variable-length part carries its UTF-8 length.
 */
module Identity {
  import opened Optional

  datatype Protocol = Mqtt311 | Mqtt5
  datatype Policy = CleanSession | ResumeSession
  datatype Transport = Tcp | WebSocket(path: string)
  datatype Tls = Plain | SystemRoots | CustomCA(file: string)

  datatype Config = Config(
    protocol: Protocol, policy: Policy, expiry: nat, transport: Transport, tls: Tls,
    host: string, port: nat, clientId: string, username: Option<string>)

  // ---------- printing ----------

  function Utf8Width(c: char): nat {
    var code := c as int;
    if code < 0x80 then 1 else if code < 0x800 then 2 else if code < 0x10000 then 3 else 4
  }

  function Utf8Length(s: string): nat {
    if s == "" then 0 else Utf8Width(s[0]) + Utf8Length(s[1..])
  }

  function Digit(d: nat): char
    requires d < 10
  {
    (48 + d) as char
  }

  function Decimal(n: nat): string {
    if n < 10 then [Digit(n)] else Decimal(n / 10) + [Digit(n % 10)]
  }

  /** `len:text`, the length counted in UTF-8 bytes. */
  function Prefixed(s: string): string {
    Decimal(Utf8Length(s)) + ":" + s
  }

  function Joined(parts: seq<string>): string
    requires parts != []
  {
    if |parts| == 1 then parts[0] else parts[0] + "|" + Joined(parts[1..])
  }

  function Scheme(c: Config): string {
    match c.transport
    case Tcp => if c.tls.Plain? then "mqtt" else "mqtts"
    case WebSocket(_) => if c.tls.Plain? then "ws" else "wss"
  }

  function Endpoint(t: Transport): string {
    match t
    case Tcp => ""
    case WebSocket(path) => Prefixed(path)
  }

  function User(u: Option<string>): string {
    match u
    case None => "none"
    case Some(name) => "some:" + Prefixed(name)
  }

  function ProtocolName(p: Protocol): string {
    if p.Mqtt311? then "311" else "5"
  }

  function PolicyName(p: Policy): string {
    if p.CleanSession? then "clean" else "resume"
  }

  const MAGIC: string := "moon-mqtt-durable-v2"

  /** The client's printer. */
  function Durable(c: Config): string {
    Joined([MAGIC, ProtocolName(c.protocol), PolicyName(c.policy), Decimal(c.expiry), Scheme(c),
            Prefixed(c.host), Decimal(c.port), Endpoint(c.transport), Prefixed(c.clientId), User(c.username)])
  }

  /** The operator tool's printer: one template, plain TCP and ResumeSession only. */
  function ToolIdentity(
    protocol: Protocol, expiry: nat, host: string, port: nat, clientId: string, username: Option<string>): string
  {
    var name := if protocol.Mqtt311? then "311" else "5";
    var user := if username.None? then "none"
                else "some:" + Decimal(Utf8Length(username.value)) + ":" + username.value;
    var endpoint := Decimal(Utf8Length(host)) + ":" + host;
    var client := Decimal(Utf8Length(clientId)) + ":" + clientId;
    Template(name, Decimal(expiry), endpoint, Decimal(port), client, user)
  }

  function Template(name: string, expiry: string, endpoint: string, port: string, client: string,
      user: string): string {
    "moon-mqtt-durable-v2|" + name + "|resume|" + expiry + "|mqtt|" + endpoint + "|" + port + "||" + client + "|" + user
  }

  /** The identity written over a retired source. */
  function TombstoneText(operation: string, archiveDigest: string): string {
    "moon-mqtt-retired-v1|" + operation + "|" + archiveDigest
  }

  // ---------- unique parsing ----------

  predicate Free(s: string, c: char) { c !in s }

  lemma DecimalDigits(n: nat)
    ensures Decimal(n) != ""
    ensures forall i :: 0 <= i < |Decimal(n)| ==> 48 <= Decimal(n)[i] as int <= 57
  {
  }

  lemma {:induction false} DecimalInjective(m: nat, n: nat)
    requires Decimal(m) == Decimal(n)
    ensures m == n
  {
    DecimalDigits(m / 10);
    DecimalDigits(n / 10);
    if m < 10 || n < 10 {
      assert |Decimal(m)| == 1 && |Decimal(n)| == 1;
      assert Decimal(m)[0] == Decimal(n)[0];
    } else {
      var a, b := Decimal(m), Decimal(n);
      assert a[..|a| - 1] == Decimal(m / 10);
      assert b[..|b| - 1] == Decimal(n / 10);
      assert a[|a| - 1] == Digit(m % 10);
      assert b[|b| - 1] == Digit(n % 10);
      DecimalInjective(m / 10, n / 10);
    }
  }

  /** A separator that a field cannot contain splits the text in one way only. */
  lemma SplitAt(c: char, a: string, r: string, b: string, t: string)
    requires Free(a, c) && Free(b, c)
    requires a + [c] + r == b + [c] + t
    ensures a == b && r == t
  {
    var whole := a + [c] + r;
    assert whole[|a|] == c && whole[|b|] == c;
    assert forall i :: 0 <= i < |a| ==> whole[i] == a[i];
    assert forall i :: 0 <= i < |b| ==> whole[i] == b[i];
    assert a == whole[..|a|] == b;
    assert r == whole[|a| + 1..] == t;
  }

  lemma {:induction false} Utf8Split(s: string, t: string)
    ensures Utf8Length(s + t) == Utf8Length(s) + Utf8Length(t)
  {
    if s == "" {
      assert s + t == t;
    } else {
      Utf8Split(s[1..], t);
      assert (s + t)[1..] == s[1..] + t;
    }
  }

  lemma {:induction false} SameLengthPrefix(s: string, t: string)
    requires s <= t && Utf8Length(s) == Utf8Length(t)
    ensures s == t
  {
    assert t == s + t[|s|..];
    Utf8Split(s, t[|s|..]);
    assert t[|s|..] == "";
  }

  /** A length prefix splits the text in one way only, whatever the text contains. */
  lemma SplitPrefixed(s: string, r: string, t: string, u: string)
    requires Prefixed(s) + r == Prefixed(t) + u
    ensures s == t && r == u
  {
    DecimalDigits(Utf8Length(s));
    DecimalDigits(Utf8Length(t));
    var m, n := Decimal(Utf8Length(s)), Decimal(Utf8Length(t));
    assert Prefixed(s) + r == m + [':'] + (s + r);
    assert Prefixed(t) + u == n + [':'] + (t + u);
    SplitAt(':', m, s + r, n, t + u);
    DecimalInjective(Utf8Length(s), Utf8Length(t));
    var whole := s + r;
    if |s| <= |t| {
      assert s == whole[..|s|] == (t + u)[..|s|] == t[..|s|];
      SameLengthPrefix(s, t);
    } else {
      assert t == (t + u)[..|t|] == whole[..|t|] == s[..|t|];
      SameLengthPrefix(t, s);
    }
    assert r == whole[|s|..] == u;
  }

  /** Both printed forms of a username determine it. */
  lemma UserInjective(u: Option<string>, v: Option<string>)
    requires User(u) == User(v)
    ensures u == v
  {
    assert User(u)[0] == if u.Some? then 's' else 'n';
    assert User(v)[0] == if v.Some? then 's' else 'n';
    if u.Some? {
      assert User(u)[5..] == Prefixed(u.value) && User(v)[5..] == Prefixed(v.value);
      assert Prefixed(u.value) + "" == Prefixed(u.value);
      assert Prefixed(v.value) + "" == Prefixed(v.value);
      SplitPrefixed(u.value, "", v.value, "");
    }
  }

  predicate SameFence(c: Config, d: Config) {
    && c.protocol == d.protocol && c.policy == d.policy && c.expiry == d.expiry
    && c.tls.Plain? == d.tls.Plain? && c.transport == d.transport
    && c.host == d.host && c.port == d.port && c.clientId == d.clientId && c.username == d.username
  }

  /** The text of `Durable` from each field on, used to peel fields off one by one. */
  function FromHost(c: Config): string {
    Prefixed(c.host) + ("|" + FromPort(c))
  }

  function FromPort(c: Config): string {
    Decimal(c.port) + "|" + FromEndpoint(c)
  }

  function FromEndpoint(c: Config): string {
    Endpoint(c.transport) + ("|" + (Prefixed(c.clientId) + ("|" + User(c.username))))
  }

  function FromExpiry(c: Config): string {
    Decimal(c.expiry) + "|" + (Scheme(c) + "|" + FromHost(c))
  }

  function FromProtocol(c: Config): string {
    ProtocolName(c.protocol) + "|" + (PolicyName(c.policy) + "|" + FromExpiry(c))
  }

  /** From the host on. */
  lemma EndpointShape(p: seq<string>, c: Config)
    requires |p| == 10 && p[5] == Prefixed(c.host) && p[6] == Decimal(c.port) && p[7] == Endpoint(c.transport)
    requires p[8] == Prefixed(c.clientId) && p[9] == User(c.username)
    ensures Joined(p[5..]) == FromHost(c)
  {
    assert Joined(p[9..]) == User(c.username);
    assert p[8..][1..] == p[9..];
    assert Joined(p[8..]) == Prefixed(c.clientId) + ("|" + User(c.username));
    assert p[7..][1..] == p[8..];
    assert Joined(p[7..]) == FromEndpoint(c);
    assert p[6..][1..] == p[7..];
    assert Joined(p[6..]) == FromPort(c);
    assert p[5..][1..] == p[6..];
  }

  lemma DurableShape(c: Config)
    ensures Durable(c) == MAGIC + "|" + FromProtocol(c)
  {
    var p := [MAGIC, ProtocolName(c.protocol), PolicyName(c.policy), Decimal(c.expiry), Scheme(c),
              Prefixed(c.host), Decimal(c.port), Endpoint(c.transport), Prefixed(c.clientId), User(c.username)];
    EndpointShape(p, c);
    JoinedMore(p, 4);
    JoinedMore(p, 3);
    JoinedMore(p, 2);
    JoinedMore(p, 1);
    JoinedMore(p, 0);
    assert p[0..] == p;
  }

  lemma JoinedMore(p: seq<string>, k: nat)
    requires k + 1 < |p|
    ensures Joined(p[k..]) == p[k] + "|" + Joined(p[k + 1..])
  {
    assert p[k..][1..] == p[k + 1..];
  }

  /** Equal endpoint texts with equal schemes come from equal paths, ports and sessions. */
  lemma TailInjective(c: Config, d: Config)
    requires Scheme(c) == Scheme(d) && FromHost(c) == FromHost(d)
    ensures c.host == d.host && c.port == d.port && c.transport == d.transport
    ensures c.clientId == d.clientId && c.username == d.username
  {
    SplitPrefixed(c.host, "|" + FromPort(c), d.host, "|" + FromPort(d));
    assert FromPort(c) == ("|" + FromPort(c))[1..] == ("|" + FromPort(d))[1..] == FromPort(d);
    DecimalDigits(c.port);
    DecimalDigits(d.port);
    SplitAt('|', Decimal(c.port), FromEndpoint(c), Decimal(d.port), FromEndpoint(d));
    DecimalInjective(c.port, d.port);
    var x, y := Prefixed(c.clientId) + ("|" + User(c.username)), Prefixed(d.clientId) + ("|" + User(d.username));
    SchemeDecides(c, d);
    if c.transport.WebSocket? {
      SplitPrefixed(c.transport.path, "|" + x, d.transport.path, "|" + y);
      assert x == ("|" + x)[1..] == ("|" + y)[1..] == y;
    } else {
      assert FromEndpoint(c) == "" + ("|" + x) == "|" + x;
      assert FromEndpoint(d) == "" + ("|" + y) == "|" + y;
      assert x == ("|" + x)[1..] == ("|" + y)[1..] == y;
    }
    SplitPrefixed(c.clientId, "|" + User(c.username), d.clientId, "|" + User(d.username));
    assert User(c.username) == ("|" + User(c.username))[1..] == ("|" + User(d.username))[1..] == User(d.username);
    UserInjective(c.username, d.username);
  }

  lemma SchemeDecides(c: Config, d: Config)
    requires Scheme(c) == Scheme(d)
    ensures c.transport.Tcp? == d.transport.Tcp? && c.tls.Plain? == d.tls.Plain?
  {
    assert "mqtt"[0] == 'm' && "mqtts"[0] == 'm' && "ws"[0] == 'w' && "wss"[0] == 'w';
    assert |"mqtt"| != |"mqtts"| && |"ws"| != |"wss"|;
  }

  lemma NamesDecide(c: Config, d: Config)
    requires FromProtocol(c) == FromProtocol(d)
    ensures c.protocol == d.protocol && c.policy == d.policy && FromExpiry(c) == FromExpiry(d)
  {
    var x, y := PolicyName(c.policy) + "|" + FromExpiry(c), PolicyName(d.policy) + "|" + FromExpiry(d);
    SplitAt('|', ProtocolName(c.protocol), x, ProtocolName(d.protocol), y);
    SplitAt('|', PolicyName(c.policy), FromExpiry(c), PolicyName(d.policy), FromExpiry(d));
    assert |"311"| != |"5"| && |"clean"| != |"resume"|;
  }

  lemma ExpiryDecides(c: Config, d: Config)
    requires FromExpiry(c) == FromExpiry(d)
    ensures c.expiry == d.expiry && Scheme(c) == Scheme(d) && FromHost(c) == FromHost(d)
  {
    DecimalDigits(c.expiry);
    DecimalDigits(d.expiry);
    var x, y := Scheme(c) + "|" + FromHost(c), Scheme(d) + "|" + FromHost(d);
    SplitAt('|', Decimal(c.expiry), x, Decimal(d.expiry), y);
    SplitAt('|', Scheme(c), FromHost(c), Scheme(d), FromHost(d));
    DecimalInjective(c.expiry, d.expiry);
  }

  /** Field by field, equal texts come from equal fields. */
  lemma KernelDecides(c: Config, d: Config)
    requires Durable(c) == Durable(d)
    ensures SameFence(c, d)
  {
    DurableShape(c);
    DurableShape(d);
    SplitAt('|', MAGIC, FromProtocol(c), MAGIC, FromProtocol(d));
    NamesDecide(c, d);
    ExpiryDecides(c, d);
    TailInjective(c, d);
    SchemeDecides(c, d);
  }

  /**
   The identity kernel: two configurations print the same identity exactly when
   they name the same session at the same endpoint, even when hosts, paths,
   client ids and user names contain separators or digits.
   */
  lemma IdentityKernel(c: Config, d: Config)
    ensures Durable(c) == Durable(d) <==> SameFence(c, d)
  {
    if SameFence(c, d) {
      assert Scheme(c) == Scheme(d);
    }
    if Durable(c) == Durable(d) {
      KernelDecides(c, d);
    }
  }

  /** The two printers agree on every plain-TCP resume session. */
  lemma PrintersAgree(c: Config)
    requires c.transport.Tcp? && c.tls.Plain? && c.policy.ResumeSession?
    ensures ToolIdentity(c.protocol, c.expiry, c.host, c.port, c.clientId, c.username) == Durable(c)
  {
    SameUser(c.username);
    DurableShape(c);
    PlainTail(c);
    TemplateShape(ProtocolName(c.protocol), Decimal(c.expiry), Prefixed(c.host), Decimal(c.port),
                  Prefixed(c.clientId), User(c.username));
  }

  lemma SameUser(u: Option<string>)
    ensures u.Some? ==> "some:" + Decimal(Utf8Length(u.value)) + ":" + u.value == User(u)
  {
    if u.Some? {
      assert "some:" + Decimal(Utf8Length(u.value)) + ":" + u.value == "some:" + Prefixed(u.value);
    }
  }

  /** From the host on, for a transport without a path. */
  function Tail(host: string, port: string, id: string, user: string): string {
    host + ("|" + (port + ("|" + ("" + ("|" + (id + ("|" + user)))))))
  }

  lemma PlainTail(c: Config)
    requires c.transport.Tcp?
    ensures FromHost(c) == Tail(Prefixed(c.host), Decimal(c.port), Prefixed(c.clientId), User(c.username))
  {
    assert FromPort(c) == Decimal(c.port) + ("|" + FromEndpoint(c));
  }

  /** The template with its literal separators is the right-nested text of the fields. */
  lemma TemplateShape(name: string, expiry: string, host: string, port: string, id: string, user: string)
    ensures Template(name, expiry, host, port, id, user)
         == MAGIC + "|" + (name + "|" + ("resume" + "|" + (expiry + "|" + ("mqtt" + "|" + Tail(host, port, id, user)))))
  {
    var a := host + "|" + port + "||" + id + "|" + user;
    assert a == Tail(host, port, id, user);
    var b := expiry + "|mqtt|" + a;
    assert b == expiry + "|" + ("mqtt" + "|" + a);
    assert Template(name, expiry, host, port, id, user) == "moon-mqtt-durable-v2|" + name + "|resume|" + b;
  }

  /** No session can open a retired store, and a tombstone names one operation and one archive. */
  lemma TombstonesAreFenced(c: Config, operation: string, digest: string, operation': string, digest': string)
    requires Free(operation, '|') && Free(operation', '|')
    ensures Durable(c) != TombstoneText(operation, digest)
    ensures TombstoneText(operation, digest) == TombstoneText(operation', digest') ==>
              operation == operation' && digest == digest'
  {
    DurableShape(c);
    assert Durable(c)[10] == 'd';
    assert TombstoneText(operation, digest)[10] == 'r';
    var a, b := operation + ['|'] + digest, operation' + ['|'] + digest';
    assert TombstoneText(operation, digest)[21..] == a;
    assert TombstoneText(operation', digest')[21..] == b;
    if TombstoneText(operation, digest) == TombstoneText(operation', digest') {
      SplitAt('|', operation, digest, operation', digest');
    }
  }
}
