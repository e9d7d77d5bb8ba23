/**
 * A bound checker is built once per target and then called once per candidate
 * credential by the engine. `RunAll` is that repeated use: the factory's probe result
 * is reused, never recomputed, and the session's events are the candidates' runs one
 * after another, each run being that candidate's `Attempt`: exactly one password
 * materialisation and one check call per candidate, for that candidate's credential.
 */
module Sessions {
  import opened Wrappers
  import opened Format
  import opened Records
  import opened Checkers

  /** The runs of the candidates in order, the events they produced, and the pointers returned. */
  datatype Session = Session(runs: seq<Run>, events: seq<Event>, results: seq<Option<AuthInfo>>)

  /** The events of a sequence of runs, one run after another. */
  function Flatten(runs: seq<Run>): seq<Event> {
    if runs == [] then [] else runs[0].events + Flatten(runs[1..])
  }

  function RunAll(c: Checker, infos: seq<AuthInfo>, makePassword: Auth -> string, check: CheckCall -> CheckResult): (s: Session)
    requires forall i :: 0 <= i < |infos| ==> Accepts(c, infos[i])
    ensures |s.runs| == |infos| && |s.results| == |infos|
    ensures forall i :: 0 <= i < |infos| ==> s.runs[i] == Attempt(c, infos[i], makePassword, check)
    ensures forall i :: 0 <= i < |infos| ==> s.results[i] == s.runs[i].result
    ensures s.events == Flatten(s.runs)
  {
    if infos == [] then Session([], [], [])
    else
      var a := Attempt(c, infos[0], makePassword, check);
      var rest := RunAll(c, infos[1..], makePassword, check);
      assert ([a] + rest.runs)[1..] == rest.runs;
      Session([a] + rest.runs, a.events + rest.events, [a.result] + rest.results)
  }

  /**
   * Over a whole session: as many materialisations and check calls as candidates, and
   * as many SID stamps as candidates for Oracle and none otherwise.
   */
  lemma {:induction false} SessionTotals(c: Checker, infos: seq<AuthInfo>, makePassword: Auth -> string, check: CheckCall -> CheckResult)
    requires forall i :: 0 <= i < |infos| ==> Accepts(c, infos[i])
    ensures var s := RunAll(c, infos, makePassword, check);
      && CountKind(s.events, MaterialiseKind) == |infos|
      && CountKind(s.events, CheckKind) == |infos|
      && CountKind(s.events, StampKind) == (if c.OracleChecker? then |infos| else 0)
  {
    if infos != [] {
      var a := Attempt(c, infos[0], makePassword, check);
      var rest := RunAll(c, infos[1..], makePassword, check);
      SessionTotals(c, infos[1..], makePassword, check);
      assert RunAll(c, infos, makePassword, check).events == a.events + rest.events;
      CountKindAppend(a.events, rest.events, MaterialiseKind);
      CountKindAppend(a.events, rest.events, CheckKind);
      CountKindAppend(a.events, rest.events, StampKind);
    }
  }

  /**
   * Every check in a session goes to the bound primitive with the bound state and
   * domain, and every stamp carries the bound SID: nothing is re-probed per candidate.
   */
  lemma {:induction false} SessionUsesBoundState(c: Checker, infos: seq<AuthInfo>, makePassword: Auth -> string, check: CheckCall -> CheckResult)
    requires forall i :: 0 <= i < |infos| ==> Accepts(c, infos[i])
    ensures var s := RunAll(c, infos, makePassword, check);
      && (forall e :: e in s.events && e.Checked? ==>
            e.call.extra == ExtraOf(c) && e.call.service == ServiceOf(c) && e.call.domain == DomainOf(c))
      && (forall e :: e in s.events && e.OtherSet? ==> c.OracleChecker? && e == OtherSet("SID", c.sid))
  {
    if infos != [] {
      var a := Attempt(c, infos[0], makePassword, check);
      var rest := RunAll(c, infos[1..], makePassword, check);
      SessionUsesBoundState(c, infos[1..], makePassword, check);
      var events := RunAll(c, infos, makePassword, check).events;
      assert events == a.events + rest.events;
      forall e | e in events
        ensures e in a.events || e in rest.events
      {
      }
    }
  }

  /**
   * A session against one RDP target probes the target once, however many candidates
   * it tries, and every check call carries the protocol found by that one probe.
   */
  lemma RdpProbedOnce(ip: string, port: int, verifyProtocol: string -> int,
                      infos: seq<AuthInfo>, makePassword: Auth -> string, check: CheckCall -> CheckResult)
    ensures var b := RdpCracker(ip, port, verifyProtocol);
      var s := RunAll(b.checker, infos, makePassword, check);
      && |b.probes| == 1
      && CountKind(s.events, CheckKind) == |infos|
      && forall e :: e in s.events && e.Checked? ==>
           e.call.extra == RdpProtocol(verifyProtocol(Target(ip, port))) && e.call.domain == Some("")
  {
    var b := RdpCracker(ip, port, verifyProtocol);
    SessionTotals(b.checker, infos, makePassword, check);
    SessionUsesBoundState(b.checker, infos, makePassword, check);
    assert b.checker == RdpChecker(verifyProtocol(Target(ip, port)));
    assert DomainOf(b.checker) == Some("");
  }

  /**
   * A session of the Oracle checker bound to `sid` stamps `Other["SID"] = sid` once for
   * each candidate, on every path, right before that candidate's own check call, and
   * every check call carries that same SID.
   */
  lemma OracleStampsEveryAttempt(sid: string, infos: seq<AuthInfo>,
                                 makePassword: Auth -> string, check: CheckCall -> CheckResult)
    requires forall i :: 0 <= i < |infos| ==> infos[i].auth.other != null
    ensures var c := OracleCracker(sid);
      var s := RunAll(c, infos, makePassword, check);
      && CountKind(s.events, StampKind) == |infos|
      && (forall i :: 0 <= i < |infos| ==>
            && CountKind(s.runs[i].events, StampKind) == 1
            && s.runs[i].events[1] == OtherSet("SID", sid)
            && s.runs[i].events[2] == Checked(CallFor(c, Materialized(infos[i], makePassword))))
      && (forall e :: e in s.events && e.OtherSet? ==> e == OtherSet("SID", sid))
      && (forall e :: e in s.events && e.Checked? ==> e.call.extra == OracleSid(sid))
  {
    var c := OracleCracker(sid);
    SessionTotals(c, infos, makePassword, check);
    SessionUsesBoundState(c, infos, makePassword, check);
  }
}
