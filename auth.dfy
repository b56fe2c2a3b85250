/**
 * Accounts: the login rule and registration, over the public `users`
 * collection and the shared `stats` collection. The password hash is the
 * function parameter `hashPwd`.
 */
module Auth {
  import opened Wrappers
  import opened Firestore

  const PasswordField: string := "password"
  const RegDateField: string := "reg_date"
  const UserCountField: string := "user_count"
  const GlobalStatsId: string := "global"

  /** The shortest key registration accepts. */
  const MinKeyLength: nat := 5

  /** Login succeeds when the account document exists and its stored
      password is the hash of the key typed in. */
  predicate PasswordMatches(users: Collection, hashPwd: string -> string, id: string, pwd: string)
    ensures PasswordMatches(users, hashPwd, id, pwd) <==>
      id in users && PasswordField in users[id] && users[id][PasswordField] == Str(hashPwd(pwd))
  {
    id in users && Get(users[id], PasswordField) == Some(Str(hashPwd(pwd)))
  }

  /** The registered-user count as the dashboard reads it: a missing document
      or field counts as 0. A non-integer value, which the application never
      writes, also counts as 0, as the increment transform treats it. */
  function UserCount(stats: Collection): (n: int)
    ensures GlobalStatsId !in stats ==> n == 0
    ensures GlobalStatsId in stats && UserCountField !in stats[GlobalStatsId] ==> n == 0
    ensures GlobalStatsId in stats && UserCountField in stats[GlobalStatsId] && stats[GlobalStatsId][UserCountField].Int?
      ==> n == stats[GlobalStatsId][UserCountField].i
  {
    if GlobalStatsId in stats && UserCountField in stats[GlobalStatsId] && stats[GlobalStatsId][UserCountField].Int?
    then stats[GlobalStatsId][UserCountField].i
    else 0
  }

  datatype RegisterError = IdTaken | KeyTooShort

  /** The account document registration writes. */
  function AccountPayload(hashPwd: string -> string, pwd: string, today: string): (p: Payload)
    ensures PlainPayload(p)
    ensures p.Keys == {PasswordField, RegDateField}
    ensures p[PasswordField] == Put(Str(hashPwd(pwd))) && p[RegDateField] == Put(Str(today))
  {
    map[PasswordField := Put(Str(hashPwd(pwd))), RegDateField := Put(Str(today))]
  }

  /** Registration: an existing id is refused first, then a short key; only
      then is the account written and the shared counter incremented.
      Success yields the new users and stats collections. */
  function Register(users: Collection, stats: Collection, hashPwd: string -> string,
                    id: string, pwd: string, today: string): (r: Result<(Collection, Collection), RegisterError>)
    ensures r == Failure(IdTaken) <==> id in users
    ensures r == Failure(KeyTooShort) <==> id !in users && |pwd| < MinKeyLength
    ensures r.Success? <==> id !in users && |pwd| >= MinKeyLength
    ensures r.Success? ==>
      var (users', stats') := r.value;
      && users'.Keys == users.Keys + {id}
      && (forall other :: other in users && other != id ==> users'[other] == users[other])
      && users'[id] == map[PasswordField := Str(hashPwd(pwd)), RegDateField := Str(today)]
      && UserCount(stats') == UserCount(stats) + 1
      && stats'.Keys == stats.Keys + {GlobalStatsId}
      && (forall other :: other in stats && other != GlobalStatsId ==> stats'[other] == stats[other])
      && (forall f :: f != UserCountField ==>
            (f in stats'[GlobalStatsId] <==> GlobalStatsId in stats && f in stats[GlobalStatsId]))
      && (forall f :: f != UserCountField && f in stats'[GlobalStatsId] ==>
            stats'[GlobalStatsId][f] == stats[GlobalStatsId][f])
  {
    if id in users then Failure(IdTaken)
    else if |pwd| < MinKeyLength then Failure(KeyTooShort)
    else
      IncrementMerge(stats, GlobalStatsId, UserCountField, 1);
      var users' := SetDoc(users, id, AccountPayload(hashPwd, pwd, today), false);
      var stats' := SetDoc(stats, GlobalStatsId, map[UserCountField := Increment(1)], true);
      Success((users', stats'))
  }

  /** After a successful registration the new account logs in with exactly
      the keys that hash like the registered one, and every other account
      logs in as before. */
  lemma RegisterThenLogin(users: Collection, stats: Collection, hashPwd: string -> string,
                          id: string, pwd: string, today: string, otherId: string, attempt: string)
    requires Register(users, stats, hashPwd, id, pwd, today).Success?
    ensures var users' := Register(users, stats, hashPwd, id, pwd, today).value.0;
      && (PasswordMatches(users', hashPwd, id, attempt) <==> hashPwd(attempt) == hashPwd(pwd))
      && (otherId != id ==>
            (PasswordMatches(users', hashPwd, otherId, attempt) <==> PasswordMatches(users, hashPwd, otherId, attempt)))
  {
  }

  /** Registering the same id twice: the second attempt is refused and
      changes neither collection, so the count grows by one in all. */
  lemma RegisterTwice(users: Collection, stats: Collection, hashPwd: string -> string,
                      id: string, pwd: string, pwd2: string, today: string)
    requires Register(users, stats, hashPwd, id, pwd, today).Success?
    ensures var (users', stats') := Register(users, stats, hashPwd, id, pwd, today).value;
      && Register(users', stats', hashPwd, id, pwd2, today) == Failure(IdTaken)
      && UserCount(stats') == UserCount(stats) + 1
  {
  }
}
