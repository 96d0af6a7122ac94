/** The local user directory (`localUsers`): loaded at start-up when
    local authentication is configured, read by the local strategy and
    extended by registration. */
module LocalDirectory {

  /** A local directory entry: the names and the salted password hash. */
  datatype Entry = Entry(givenName: string, familyName: string, passHash: string, passSalt: string)

  /** The in-memory local directory, username to entry. */
  type Directory = map<string, Entry>
}
