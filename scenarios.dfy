/** End-to-end uses of the adapters against stubbed check primitives. */
module Scenarios {
  import opened Wrappers
  import opened Records
  import opened Checkers
  import opened Adapters

  /** A primitive that answers every call the same way. */
  function Answer(ok: bool, hasErr: bool): CheckCall -> CheckResult {
    _ => CheckResult(ok, hasErr)
  }

  /** `MakePassword` on a password without a template leaves it as it is. */
  function Plain(a: Auth): string {
    a.password
  }

  /** SSH to 10.0.0.5:22 as root/toor, the primitive accepting: a confirmed record for root. */
  method SshAccepted() returns (r: Option<AuthInfo>)
    ensures r.Some? && r.value.status && r.value.auth.username == "root" && r.value.port == 22
  {
    var info := AuthInfo("10.0.0.5", 22, Auth("root", "toor", null), false);
    ghost var events;
    r, events := Crack(SshChecker, info, Plain, Answer(true, false));
  }

  /** MySQL to 10.0.0.5:3306 as root/wrongpass, the primitive refusing: no record. */
  method MySqlRefused() returns (r: Option<AuthInfo>)
    ensures r.None?
  {
    var info := AuthInfo("10.0.0.5", 3306, Auth("root", "wrongpass", null), false);
    ghost var events;
    r, events := Crack(MySqlChecker, info, Plain, Answer(false, false));
  }

  /**
   * Oracle to 10.0.0.9:1521 with SID ORCL, the primitive accepting: the record comes
   * back confirmed with `Other["SID"] == "ORCL"`, and the caller's own record, which it
   * still holds, shares that map while its `Status` stays false.
   */
  method OracleAccepted() returns (r: Option<AuthInfo>, caller: AuthInfo)
    ensures r.Some? && r.value.status && !caller.status
    ensures r.value.auth.other == caller.auth.other
    ensures r.value.auth.other != null && "SID" in r.value.auth.other.entries && r.value.auth.other.entries["SID"] == "ORCL"
    ensures caller.auth.other != null && caller.auth.other.entries == map["SID" := "ORCL"]
  {
    var other := new OtherMap(map[]);
    caller := AuthInfo("10.0.0.9", 1521, Auth("system", "oracle", other), false);
    ghost var events;
    r, events := Crack(OracleCracker("ORCL"), caller, Plain, Answer(true, false));
  }

  /** FTP answering ok together with an error still yields a confirmed record. */
  method FtpAnomalyKept() returns (r: Option<AuthInfo>, other: Option<AuthInfo>)
    ensures r.Some? && r.value.status
    ensures other.None?
  {
    var info := AuthInfo("10.0.0.5", 21, Auth("ftp", "ftp", null), false);
    ghost var events;
    r, events := Crack(FtpChecker, info, Plain, Answer(true, true));
    other, events := Crack(PostgreSqlChecker, info, Plain, Answer(true, true));
  }
}
