/** `processAuthCallback`: the bridge from a normalised identity to the
    durable user record, looked up by account id and created on first login. */
module UserDirectory {
  import opened Options
  import opened State

  /** A row of the user store. `id` is assigned by the store on insertion. */
  datatype UserRow = UserRow(id: nat, accountId: string, givenName: string, familyName: string,
                             teamId: Option<string>, level: int)

  /** The user store, keyed by account id. */
  type UserStore = map<string, UserRow>

  /** Every row sits under its own account id. */
  ghost predicate WellKeyed(store: UserStore) {
    forall k :: k in store ==> store[k].accountId == k
  }

  /** The row as the session sees it, with the per-login e-mail laid over it. */
  function WithEmail(row: UserRow, email: Option<string>): Principal
  {
    Principal(Some(row.id), row.accountId, row.givenName, row.familyName, row.teamId, row.level, email)
  }

  datatype Resolved = Resolved(store: UserStore, user: Principal)

  /** `processAuthCallback`. An existing row is returned with only the e-mail
      overlaid; a missing one is inserted with no team and level 0 (`rowId`
      is the id the store assigns) and then read back. */
  function ResolveOrCreate(store: UserStore, rowId: nat, accountId: string, givenName: string,
                           familyName: string, email: Option<string>): (r: Resolved)
    ensures accountId in r.store && r.user == WithEmail(r.store[accountId], email)
    ensures r.store.Keys == store.Keys + {accountId}
    ensures forall k :: k in store ==> r.store[k] == store[k]
    ensures accountId !in store ==> r.store[accountId] == UserRow(rowId, accountId, givenName, familyName, None, 0)
  {
    if accountId in store then
      Resolved(store, WithEmail(store[accountId], email))
    else
      var inserted := store[accountId := UserRow(rowId, accountId, givenName, familyName, None, 0)];
      var reread := inserted[accountId];
      Resolved(inserted, WithEmail(reread, email))
  }

  /** The bridge keeps every row under its own account id, and then the
      returned user carries the requested account id. */
  lemma ResolveKeepsStoreWellKeyed(store: UserStore, rowId: nat, accountId: string, givenName: string,
                                   familyName: string, email: Option<string>)
    requires WellKeyed(store)
    ensures WellKeyed(ResolveOrCreate(store, rowId, accountId, givenName, familyName, email).store)
    ensures ResolveOrCreate(store, rowId, accountId, givenName, familyName, email).user.accountId == accountId
  {
  }

  /** Resolving the same account id twice: the second call changes nothing
      in the store and returns the same user, the e-mail aside, whatever
      names and row id it is offered. */
  lemma ResolveTwiceIsStable(store: UserStore, id1: nat, id2: nat, accountId: string,
                             g1: string, f1: string, e1: Option<string>,
                             g2: string, f2: string, e2: Option<string>)
    ensures var r1 := ResolveOrCreate(store, id1, accountId, g1, f1, e1);
            var r2 := ResolveOrCreate(r1.store, id2, accountId, g2, f2, e2);
            && r2.store == r1.store
            && r2.user == r1.user.(email := e2)
            && r2.user.accountId == r1.user.accountId
            && r2.user.givenName == r1.user.givenName && r2.user.familyName == r1.user.familyName
  {
  }
}
