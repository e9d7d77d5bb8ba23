/**
 * The adapter bodies as the Go code runs them: copy the record, materialise the
 * password on the copy, write the SID into the shared `Other` map (Oracle), call the
 * primitive, and return the copy with `Status` set or no record.
 */
module Adapters {
  import opened Wrappers
  import opened Records
  import opened Checkers

  /**
   * Returns what `Attempt` specifies. The caller's record is a value and keeps its
   * `Status`; but the Oracle adapter's write to `Other` goes through the map reference
   * both records share, so the caller sees `Other["SID"] == sid` afterwards, whether or
   * not a record is returned. No other adapter touches the heap.
   */
  method Crack(c: Checker, info: AuthInfo, makePassword: Auth -> string, check: CheckCall -> CheckResult)
    returns (r: Option<AuthInfo>, ghost events: seq<Event>)
    requires Accepts(c, info)
    modifies if c.OracleChecker? then {info.auth.other} else {}
    ensures r == Attempt(c, info, makePassword, check).result
    ensures events == Attempt(c, info, makePassword, check).events
    ensures r.Some? ==> r.value.status && r.value.auth.other == info.auth.other
    ensures c.OracleChecker? ==> info.auth.other.entries == old(info.auth.other.entries)["SID" := c.sid]
    ensures c.OracleChecker? ==> "SID" in info.auth.other.entries && info.auth.other.entries["SID"] == c.sid
  {
    var copy := info;
    copy := copy.(auth := copy.auth.(password := makePassword(copy.auth)));
    events := [PasswordMade(copy.auth.password)];
    if c.OracleChecker? {
      copy.auth.other.Put("SID", c.sid);
      events := events + [OtherSet("SID", c.sid)];
    }
    var call := CallFor(c, copy);
    var res := check(call);
    events := events + [Checked(call)];
    if res.ok {
      if res.hasErr {
        // one debug line naming the credential and the target
        events := events + [DebugLogged];
        if !TrustsAnomaly(c) {
          return None, events;
        }
      }
      copy := copy.(status := true);
      return Some(copy), events;
    }
    return None, events;
  }
}
