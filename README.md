# Credential-check dispatch of kscan's hydra module

This project models `core/hydra/cracker.go` of kscan: the layer that turns one
candidate credential for one target into a call to a protocol's check primitive and
normalises the primitive's `(ok, err)` answer into either no record (`nil`) or a copy
of the record marked `Status = true`.

- `Checkers.Checker` has one variant per adapter: `rdpCracker`'s closure (`RdpChecker`,
  with the probed protocol), `smbCracker`, `sshCracker`, `telnetCracker`'s closure
  (`TelnetChecker`, with the server type), `mysqlCracker`, `mssqlCracker`,
  `redisCracker`, `ftpCracker`, `postgresqlCracker`, `oracleCracker`'s closure
  (`OracleChecker`, with the SID) and `mongodbCracker`. What a closure captures is a
  constructor field, so it cannot change between calls.
- `Checkers.CallFor` is each adapter's argument list to its primitive.
- `Checkers.Attempt` is the pure specification of one adapter call. It returns the
  adapter's observable events (password materialised, SID stamped, primitive called,
  debug line logged) and the returned record.
- `Adapters.Crack` is the adapter body as the Go code runs it. It copies the record,
  materialises the password, writes the SID into the shared `Other` map, calls the
  primitive and branches. It is proved to return what `Attempt` specifies. `Other` is
  a heap object (`Records.OtherMap`), as a Go map is a reference, so the Oracle
  adapter's write is visible through the caller's record.
- `TelnetProbe.GetTelnetServerType` is the branch logic of the Telnet server-type probe.
- `Format.Target` is the `"%s:%d"` target string that the RDP factory probes. The
  decimal parsing in `Format` describes Go's `%d` output, which `Target` relies on;
  it is not an operation of the core.
- `Sessions.RunAll` is a bound checker called once per candidate, as the engine does.
  Each candidate's run is that candidate's `Attempt`. `SessionTotals` and
  `SessionUsesBoundState` show that the probe result is reused and never recomputed.

External collaborators enter as parameters. The check primitives become
`check: CheckCall -> CheckResult`, where `CheckResult(ok, hasErr)` records whether the
error was non-nil. `MakePassword` becomes `makePassword: Auth -> string`, and
`grdp.VerifyProtocol` becomes `verifyProtocol: string -> int`. The Telnet client is
reduced to whether `Connect` failed and what `MakeServerType` reports.

The FTP adapter keeps a success that came with an error, unlike the other ten. The
model preserves this as `Checkers.TrustsAnomaly`. Nothing in the code shows whether it
is intended.

## Model

| member | source | states |
|---|---|---|
| Checkers.Attempt | core/hydra/cracker.go:21-194 | A record comes back iff the primitive said ok and either gave no error or the adapter is FTP's. The record is the input with the materialised password and `Status = true`, and nothing else changed. A debug line is logged iff ok came with an error. The password is materialised exactly once, as the first event. The primitive is called exactly once, after it, with the materialised record's arguments. Oracle stamps `Other["SID"]` between the two. |
| Checkers.CallFor | core/hydra/cracker.go:21-194 | Each adapter passes host, port and the materialised password. Only RDP and SMB pass a domain, and it is `""`. Only Redis omits the username. RDP, Telnet and Oracle pass their captured protocol, server type or SID. |
| Checkers.RdpCracker | core/hydra/cracker.go:21-25 | The RDP factory probes exactly one target, `IPAddr:port`. Its checker carries the protocol that probe returned. |
| Checkers.TelnetCracker | core/hydra/cracker.go:70-74 | The Telnet checker passes the captured server type to every check. |
| Checkers.OracleCracker | core/hydra/cracker.go:165-170 | The Oracle checker passes the captured SID to every check. |
| Adapters.Crack | core/hydra/cracker.go:165-179 | The imperative adapter returns what `Attempt` specifies. The events it records as it runs are `Attempt`'s, in the same order: materialise, stamp (Oracle), check, then the debug line. A returned record has `Status` set and shares the caller's `Other` map. For Oracle, the caller's map afterwards equals the old map with `"SID"` set to the SID, on every path. No other adapter writes to the heap. |
| Records.Materialized | core/hydra/cracker.go:26-27 | After `MakePassword`, the password is what materialisation derives from the credential. Every other field is unchanged. |
| Records.OtherMap.Put | core/hydra/cracker.go:169 | A write to `Other` sets one key and keeps the rest of the map. |
| TelnetProbe.GetTelnetServerType | core/hydra/cracker.go:86-94 | A failed connect yields `Closed`, and the server type is never queried and nothing is closed. A successful connect yields the reported type, with one query and exactly one `Close`, and the `Close` is last. |
| Format.Target | core/hydra/cracker.go:22 | The probe target is the host, a colon, and a colon-free decimal numeral that parses back to the port. |
| Format.FormatIntRoundTrip | core/hydra/cracker.go:22 | `%d` of any int parses back to that int, including negatives. This describes Go's `fmt` formatting that `Target` relies on. Nothing in the core parses the target. |
| Sessions.RunAll | core/hydra/cracker.go:21-38 | Over any number of candidates, the session holds one run per candidate, in order, and candidate `i`'s run is exactly `Attempt` on candidate `i`. So each candidate gets its own single materialisation and its own single check, with its own credential. The session's events are those runs concatenated, and its results are theirs. |
| Sessions.SessionTotals | core/hydra/cracker.go:21-38 | A session makes as many materialisations and check calls as there are candidates. It makes as many SID stamps for Oracle, and none for any other checker. |
| Sessions.SessionUsesBoundState | core/hydra/cracker.go:21-38 | Every check in a session goes to the bound primitive with the captured state and the adapter's domain. Every stamp carries the captured SID. |
| Sessions.RdpProbedOnce | core/hydra/cracker.go:21-29 | A session against one RDP target has one probe however many candidates it tries. Every check carries that probe's protocol and the empty domain. |
| Sessions.OracleStampsEveryAttempt | core/hydra/cracker.go:165-170 | In an Oracle session, candidate `i`'s run stamps `Other["SID"] = sid` exactly once, right before candidate `i`'s own check. No other SID is ever stamped, and every check carries that SID. |
| Scenarios.SshAccepted | core/hydra/cracker.go:56-68 | SSH `root/toor` at `10.0.0.5:22`, primitive `(true, nil)`: a confirmed record for `root`. |
| Scenarios.MySqlRefused | core/hydra/cracker.go:96-108 | MySQL `root/wrongpass` at `10.0.0.5:3306`, primitive `(false, nil)`: no record. |
| Scenarios.OracleAccepted | core/hydra/cracker.go:165-180 | Oracle SID `ORCL`, primitive `(true, nil)`: a confirmed record whose `Other["SID"]` is `ORCL`. The record shares its map with the caller's, which is exactly `{SID: ORCL}`. The caller's `Status` stays false. |
| Scenarios.FtpAnomalyKept | core/hydra/cracker.go:138-149 | With `(true, err)`, FTP returns a confirmed record and PostgreSQL returns none. |

## Left out

- The check primitives (`rdp.Check`, `smb.Check`, `ssh.Check`, ...), `MakePassword` and `grdp.VerifyProtocol` are not part of this model. They are network clients or code not shown, so they enter only as function parameters.
- The gotelnet client internals are not part of this model. Only the connect outcome and the reported server type enter. The numeric values of gotelnet's server-type constants are not modelled either. `TelnetProbe.ServerType` is `Closed` or a reported code.
- Logging: the text and format of the debug lines and the logging sink are left out. The model records only that one debug line was logged (`Checkers.DebugLogged`).
- The `i.(AuthInfo)` type assertion and its panic on a different dynamic type are left out. The parameter is typed `AuthInfo`.
- A nil `Other` map on the Oracle path is excluded by a precondition (`Checkers.Accepts`), because Go panics on that write.
- `Records.Materialized`: `MakePassword` is modelled as deriving only the new password from the credential. Any other change it might make to `Auth` is not modelled.
- The concurrent use of a bound checker by the engine's worker pool and the engine's loop over candidates are outside this file. `Sessions.RunAll` models only their sequential effect.
