/**
 * The eleven per-protocol adapters of `core/hydra/cracker.go`, their factories, and the
 * normalisation of a check primitive's `(ok, err)` into "no record" or a record marked
 * as a confirmed success.
 */
module Checkers {
  import opened Wrappers
  import opened Format
  import opened Records
  import opened TelnetProbe

  /** The external check primitive that an adapter calls (`rdp.Check`, `smb.Check`, ...). */
  datatype Service = Rdp | Smb | Ssh | Telnet | MySql | MsSql | Redis | Ftp | PostgreSql | Oracle | MongoDb

  /**
   * A checker bound to what its factory captured: the probed RDP security protocol,
   * the Telnet server type, or the Oracle SID. The other eight adapters capture nothing.
   */
  datatype Checker =
    | RdpChecker(protocol: int)
    | SmbChecker
    | SshChecker
    | TelnetChecker(serverType: ServerType)
    | MySqlChecker
    | MsSqlChecker
    | RedisChecker
    | FtpChecker
    | PostgreSqlChecker
    | OracleChecker(sid: string)
    | MongoDbChecker

  /** The trailing protocol-specific argument of a check call. */
  datatype Extra = NoExtra | RdpProtocol(id: int) | TelnetServer(serverType: ServerType) | OracleSid(sid: string)

  /**
   * The arguments of one call to a check primitive. `domain` is present only for the
   * primitives that take one, `username` only for those that take one.
   */
  datatype CheckCall = CheckCall(
    service: Service, host: string, domain: Option<string>, username: Option<string>,
    password: string, port: int, extra: Extra)

  /** What a check primitive returns: its success flag and whether its error is non-nil. */
  datatype CheckResult = CheckResult(ok: bool, hasErr: bool)

  /** What an adapter does that can be observed, in order. */
  datatype Event =
    | PasswordMade(password: string)
    | OtherSet(key: string, value: string)
    | Checked(call: CheckCall)
    | DebugLogged

  datatype Kind = MaterialiseKind | StampKind | CheckKind | LogKind

  /** One adapter invocation: what it did and the pointer it returned. */
  datatype Run = Run(events: seq<Event>, result: Option<AuthInfo>)

  /** A bound checker together with the probe targets its factory contacted. */
  datatype Bound = Bound(checker: Checker, probes: seq<string>)

  function ServiceOf(c: Checker): Service {
    match c
    case RdpChecker(_) => Rdp
    case SmbChecker => Smb
    case SshChecker => Ssh
    case TelnetChecker(_) => Telnet
    case MySqlChecker => MySql
    case MsSqlChecker => MsSql
    case RedisChecker => Redis
    case FtpChecker => Ftp
    case PostgreSqlChecker => PostgreSql
    case OracleChecker(_) => Oracle
    case MongoDbChecker => MongoDb
  }

  /** The captured state a bound checker passes to its primitive on every call. */
  function ExtraOf(c: Checker): Extra {
    match c
    case RdpChecker(p) => RdpProtocol(p)
    case TelnetChecker(t) => TelnetServer(t)
    case OracleChecker(sid) => OracleSid(sid)
    case _ => NoExtra
  }

  /** The domain argument: RDP and SMB pass the empty domain, no other primitive takes one. */
  function DomainOf(c: Checker): Option<string> {
    if c.RdpChecker? || c.SmbChecker? then Some("") else None
  }

  /** Only the FTP adapter keeps a success that came with an error. */
  predicate TrustsAnomaly(c: Checker) {
    c.FtpChecker?
  }

  /** The Oracle adapter writes into `Other`, which panics on a nil map. */
  predicate Accepts(c: Checker, info: AuthInfo) {
    c.OracleChecker? ==> info.auth.other != null
  }

  function KindOf(e: Event): Kind {
    match e
    case PasswordMade(_) => MaterialiseKind
    case OtherSet(_, _) => StampKind
    case Checked(_) => CheckKind
    case DebugLogged => LogKind
  }

  function CountKind(events: seq<Event>, k: Kind): nat {
    if events == [] then 0
    else CountKind(events[..|events| - 1], k) + (if KindOf(events[|events| - 1]) == k then 1 else 0)
  }

  lemma {:induction false} CountKindAppend(a: seq<Event>, b: seq<Event>, k: Kind)
    ensures CountKind(a + b, k) == CountKind(a, k) + CountKind(b, k)
  {
    if b == [] {
      assert a + b == a;
    } else {
      var b' := b[..|b| - 1];
      assert (a + b)[..|a + b| - 1] == a + b';
      CountKindAppend(a, b', k);
    }
  }

  lemma CountKindSingle(e: Event, k: Kind)
    ensures CountKind([e], k) == if KindOf(e) == k then 1 else 0
  {
    assert [e][..0] == [];
  }

  /**
   * The arguments each adapter passes to its primitive, taken from the materialised
   * record: RDP and SMB add the empty domain, Redis passes no username, and RDP,
   * Telnet and Oracle add what their factory captured.
   */
  function CallFor(c: Checker, m: AuthInfo): (call: CheckCall)
    ensures call.service == ServiceOf(c)
    ensures call.host == m.ipAddr && call.port == m.port && call.password == m.auth.password
    ensures call.domain == DomainOf(c) && (call.domain.Some? <==> c.RdpChecker? || c.SmbChecker?)
    ensures call.domain.Some? ==> call.domain.value == ""
    ensures call.username.None? <==> c.RedisChecker?
    ensures call.username.Some? ==> call.username.value == m.auth.username
    ensures call.extra == ExtraOf(c)
  {
    CheckCall(
      ServiceOf(c),
      m.ipAddr,
      DomainOf(c),
      if c.RedisChecker? then None else Some(m.auth.username),
      m.auth.password,
      m.port,
      ExtraOf(c))
  }

  /** What the primitive answers to the call an adapter makes for `info`. */
  function Outcome(c: Checker, info: AuthInfo, makePassword: Auth -> string, check: CheckCall -> CheckResult): CheckResult {
    check(CallFor(c, Materialized(info, makePassword)))
  }

  /** Where the check call stands in an adapter's events: after the SID stamp for Oracle. */
  function CheckIndex(c: Checker): nat {
    if c.OracleChecker? then 2 else 1
  }

  /**
   * One adapter invocation: materialise the password, stamp the SID (Oracle only),
   * call the primitive once, then normalise its answer. A record comes back exactly
   * when the primitive said ok and either raised no error or the adapter is FTP's;
   * that record is the materialised copy with `Status` set.
   */
  function Attempt(c: Checker, info: AuthInfo, makePassword: Auth -> string, check: CheckCall -> CheckResult): (a: Run)
    requires Accepts(c, info)
    ensures var res := Outcome(c, info, makePassword, check);
      a.result.Some? <==> res.ok && (!res.hasErr || TrustsAnomaly(c))
    ensures a.result.Some? ==> a.result.value == Materialized(info, makePassword).(status := true)
    ensures var res := Outcome(c, info, makePassword, check);
      DebugLogged in a.events <==> res.ok && res.hasErr
    ensures CountKind(a.events, MaterialiseKind) == 1 && CountKind(a.events, CheckKind) == 1
    ensures CountKind(a.events, LogKind) <= 1
    ensures CountKind(a.events, StampKind) == if c.OracleChecker? then 1 else 0
    ensures |a.events| > CheckIndex(c) && a.events[0] == PasswordMade(makePassword(info.auth))
    ensures a.events[CheckIndex(c)] == Checked(CallFor(c, Materialized(info, makePassword)))
    ensures c.OracleChecker? ==> a.events[1] == OtherSet("SID", c.sid)
    ensures forall e :: e in a.events && e.Checked? ==> e.call == CallFor(c, Materialized(info, makePassword))
    ensures forall e :: e in a.events && e.OtherSet? ==> c.OracleChecker? && e == OtherSet("SID", c.sid)
  {
    var m := Materialized(info, makePassword);
    var call := CallFor(c, m);
    var res := check(call);
    var stamp := if c.OracleChecker? then [OtherSet("SID", c.sid)] else [];
    var logged := if res.ok && res.hasErr then [DebugLogged] else [];
    var result :=
      if !res.ok then None
      else if res.hasErr then (if TrustsAnomaly(c) then Some(m.(status := true)) else None)
      else Some(m.(status := true));
    var events := [PasswordMade(m.auth.password)] + stamp + [Checked(call)] + logged;
    ShapeOfRun(m.auth.password, stamp, call, logged);
    assert events[|stamp| + 1] == Checked(call);
    Run(events, result)
  }

  /**
   * `rdpCracker`: probe the target's RDP security protocol once, at construction, and
   * bind it. Every call the bound checker makes then carries that protocol and the
   * empty domain (see `CallFor`).
   */
  function RdpCracker(ip: string, port: int, verifyProtocol: string -> int): (b: Bound)
    ensures |b.probes| == 1 && b.probes[0] == Target(ip, port)
    ensures ServiceOf(b.checker) == Rdp
    ensures ExtraOf(b.checker) == RdpProtocol(verifyProtocol(b.probes[0]))
  {
    var target := Target(ip, port);
    Bound(RdpChecker(verifyProtocol(target)), [target])
  }

  /** `telnetCracker`: every call the bound checker makes carries the captured server type. */
  function TelnetCracker(serverType: ServerType): (c: Checker)
    ensures ServiceOf(c) == Telnet
    ensures ExtraOf(c) == TelnetServer(serverType)
  {
    TelnetChecker(serverType)
  }

  /**
   * `oracleCracker`: every call the bound checker makes carries the captured SID, and
   * every invocation stamps that SID into `Other` before the call (see `Attempt`).
   */
  function OracleCracker(sid: string): (c: Checker)
    ensures ServiceOf(c) == Oracle
    ensures ExtraOf(c) == OracleSid(sid)
    ensures c.OracleChecker? && c.sid == sid
  {
    OracleChecker(sid)
  }

  lemma ShapeOfRun(pw: string, stamp: seq<Event>, call: CheckCall, logged: seq<Event>)
    requires forall e :: e in stamp ==> e.OtherSet?
    requires forall e :: e in logged ==> e == DebugLogged
    ensures var events := [PasswordMade(pw)] + stamp + [Checked(call)] + logged;
      && CountKind(events, MaterialiseKind) == 1
      && CountKind(events, CheckKind) == 1
      && CountKind(events, LogKind) == |logged|
      && CountKind(events, StampKind) == |stamp|
    ensures var events := [PasswordMade(pw)] + stamp + [Checked(call)] + logged;
      && (forall e :: e in events && e.Checked? ==> e == Checked(call))
      && (forall e :: e in events && e.OtherSet? ==> e in stamp)
  {
    var events := [PasswordMade(pw)] + stamp + [Checked(call)] + logged;
    forall k: Kind
      ensures CountKind(events, k)
        == CountKind([PasswordMade(pw)], k) + CountKind(stamp, k) + CountKind([Checked(call)], k) + CountKind(logged, k)
    {
      CountKindAppend([PasswordMade(pw)], stamp, k);
      CountKindAppend([PasswordMade(pw)] + stamp, [Checked(call)], k);
      CountKindAppend([PasswordMade(pw)] + stamp + [Checked(call)], logged, k);
    }
    CountKindAll(stamp, MaterialiseKind, StampKind);
    CountKindAll(stamp, CheckKind, StampKind);
    CountKindAll(stamp, LogKind, StampKind);
    CountKindAll(stamp, StampKind, StampKind);
    CountKindAll(logged, StampKind, LogKind);
    CountKindSingle(PasswordMade(pw), StampKind);
    CountKindSingle(Checked(call), StampKind);
    CountKindAll(logged, MaterialiseKind, LogKind);
    CountKindAll(logged, CheckKind, LogKind);
    CountKindAll(logged, LogKind, LogKind);
    CountKindSingle(PasswordMade(pw), MaterialiseKind);
    CountKindSingle(PasswordMade(pw), CheckKind);
    CountKindSingle(PasswordMade(pw), LogKind);
    CountKindSingle(Checked(call), MaterialiseKind);
    CountKindSingle(Checked(call), CheckKind);
    CountKindSingle(Checked(call), LogKind);
  }

  lemma {:induction false} CountKindAll(events: seq<Event>, k: Kind, only: Kind)
    requires forall e :: e in events ==> KindOf(e) == only
    ensures CountKind(events, k) == if k == only then |events| else 0
  {
    if events != [] {
      CountKindAll(events[..|events| - 1], k, only);
    }
  }
}
