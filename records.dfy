/** The credential record that flows through every checker (`AuthInfo` with its `Auth`). */
module Records {

  /**
   * `Auth.Other`, a Go `map[string]string`. A Go map is a reference: copying a record
   * copies the reference, so a write through the copy is seen through the original.
   */
  class OtherMap {
    var entries: map<string, string>

    constructor (initial: map<string, string>)
      ensures entries == initial
    {
      entries := initial;
    }

    /** `m[key] = value` */
    method Put(key: string, value: string)
      modifies this
      ensures entries == old(entries)[key := value]
    {
      entries := entries[key := value];
    }
  }

  /** `Other` is `null` where the Go map is nil. */
  datatype Auth = Auth(username: string, password: string, other: OtherMap?)

  datatype AuthInfo = AuthInfo(ipAddr: string, port: int, auth: Auth, status: bool)

  /**
   * The record after `info.Auth.MakePassword()`: the password is replaced by what the
   * materialisation step derives from the credential, and nothing else changes.
   */
  function Materialized(info: AuthInfo, makePassword: Auth -> string): (m: AuthInfo)
    ensures m.auth.password == makePassword(info.auth)
    ensures m.(auth := m.auth.(password := info.auth.password)) == info
  {
    info.(auth := info.auth.(password := makePassword(info.auth)))
  }
}
