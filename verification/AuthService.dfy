/** The authentication service over its user and refresh-token tables. What its environment
    does in a call is the `Env` it is given; every call is proved to be the step it names. */
module AuthService {
  import opened Common
  import opened RefreshTokens

  class AuthService {
    var users: map<UserId, Account>
    var rows: map<Token, Row>

    ghost function Tables(): State
      reads this
    {
      State(users, rows)
    }

    /** The user table's unique index. */
    ghost predicate UniqueEmails()
      reads this
    {
      forall u, v | u in users && v in users :: users[u].email == users[v].email ==> u == v
    }

    constructor ()
      ensures UniqueEmails() && Tables() == EMPTY
    {
      users, rows := map[], map[];
    }

    method FindByEmail(email: string) returns (id: Option<UserId>)
      requires UniqueEmails()
      ensures id.Some? <==> Known(Tables(), email)
      ensures id.Some? ==> id.value == Owner(Tables(), email)
    {
      var left := users.Keys;
      while left != {}
        invariant left <= users.Keys
        invariant forall u | u in users && u !in left :: users[u].email != email
      {
        var u :| u in left;
        if users[u].email == email {
          assert Known(Tables(), email);
          return Some(u);
        }
        left := left - {u};
      }
      id := None;
    }

    /** Creates the token's row; a failure is only logged by the callers. */
    method StoreRefreshToken(user: UserId, token: Token, env: Env) returns (ok: bool)
      modifies this`rows
      ensures rows == Store(old(rows), user, token, env)
      ensures ok <==> env.stored && token !in old(rows)
    {
      ok := env.stored && token !in rows;
      if ok {
        rows := rows[token := Row(user, env.now + env.ttl, None)];
      }
    }

    /** `id` is a fresh user id. */
    method Register(email: string, id: UserId, env: Env) returns (token: Option<Token>)
      requires UniqueEmails() && id !in users
      modifies this
      ensures UniqueEmails()
      ensures var c := Call.Register(email, id, env);
              Tables() == Next(old(Tables()), c) && token == Answer(old(Tables()), c)
      ensures var admitted := env.readable && env.created && forall u :: u in old(users) ==>
                old(users)[u].email != email;
              && users == (if admitted then old(users)[id := Account(email, true)] else old(users))
              && token == (if admitted then env.minted else None)
              && rows == (if admitted && env.minted.Some? && env.stored && env.minted.value !in old(rows)
                          then old(rows)[env.minted.value := Row(id, env.now + env.ttl, None)] else old(rows))
    {
      var existing := FindByEmail(email);
      if !env.readable {
        return None;
      }
      if existing.Some? {
        return None;
      }
      if !env.created {
        return None;
      }
      users := users[id := Account(email, true)];
      if env.minted.None? {
        return None;
      }
      var stored := StoreRefreshToken(id, env.minted.value, env);
      token := env.minted;
    }

    /** `passwordMatches` is the answer of the password check. */
    method Login(email: string, passwordMatches: bool, env: Env) returns (token: Option<Token>)
      requires UniqueEmails()
      modifies this`rows
      ensures var c := Call.Login(email, passwordMatches, env);
              Tables() == Next(old(Tables()), c) && token == Answer(old(Tables()), c)
      ensures token.Some? <==>
                && env.readable && passwordMatches && env.minted.Some?
                && exists u :: u in users && users[u].email == email && users[u].active
      ensures token.Some? ==> token == env.minted
      ensures token.None? || !env.stored || env.minted.value in old(rows) ==> rows == old(rows)
      ensures token.Some? && env.stored && env.minted.value !in old(rows) ==>
                exists u :: u in users && users[u].email == email
                  && rows == old(rows)[env.minted.value := Row(u, env.now + env.ttl, None)]
    {
      var id := FindByEmail(email);
      if !env.readable || id.None? {
        return None;
      }
      var user := id.value;
      if !users[user].active {
        return None;
      }
      if !passwordMatches {
        return None;
      }
      if env.minted.None? {
        return None;
      }
      var stored := StoreRefreshToken(user, env.minted.value, env);
      token := env.minted;
    }

    /** `claims` is the user the token's signature and expiry vouch for, if they do. */
    method Refresh(refreshToken: Token, claims: Option<UserId>, env: Env) returns (token: Option<Token>)
      modifies this`rows
      ensures var c := Call.Refresh(refreshToken, claims, env);
              Tables() == Next(old(Tables()), c) && token == Answer(old(Tables()), c)
      ensures var accepted := && claims.Some? && env.readable && refreshToken in old(rows)
                              && old(rows)[refreshToken].user == claims.value
                              && old(rows)[refreshToken].revoked.None? && env.now < old(rows)[refreshToken].expires;
              && (token.Some? <==> accepted && env.found && claims.value in users && env.minted.Some?)
              && (token.Some? ==> token == env.minted)
              && (!accepted ==> rows == old(rows))
              && (accepted && env.saved ==> refreshToken in rows && rows[refreshToken].revoked == Some(env.now))
              && (token.Some? && env.stored && env.minted.value !in old(rows) ==>
                    env.minted.value in rows
                      && rows[env.minted.value] == Row(claims.value, env.now + env.ttl, None))
    {
      if claims.None? {
        return None;
      }
      var userID := claims.value;
      if !env.readable || refreshToken !in rows || rows[refreshToken].user != userID {
        return None;
      }
      var row := rows[refreshToken];
      if row.revoked.Some? || !(env.now < row.expires) {
        return None;
      }
      if env.saved {
        rows := rows[refreshToken := row.(revoked := Some(env.now))];
      }
      if !env.found || userID !in users {
        return None;
      }
      if env.minted.None? {
        return None;
      }
      var stored := StoreRefreshToken(userID, env.minted.value, env);
      token := env.minted;
    }

    method Logout(refreshToken: Token, env: Env) returns (ok: bool)
      modifies this`rows
      ensures Tables() == Next(old(Tables()), Call.Logout(refreshToken, env)) && ok == env.saved
      ensures rows == if ok && refreshToken in old(rows)
                      then old(rows)[refreshToken := old(rows)[refreshToken].(revoked := Some(env.now))] else old(rows)
    {
      ok := env.saved;
      if ok && refreshToken in rows {
        rows := rows[refreshToken := rows[refreshToken].(revoked := Some(env.now))];
      }
    }

    /** The administrator's call: reads the account and writes it back with the flag set. */
    method SetUserActive(user: UserId, active: bool, env: Env) returns (ok: bool)
      requires UniqueEmails()
      modifies this`users
      ensures UniqueEmails() && Tables() == Next(old(Tables()), Call.SetActive(user, active, env))
      ensures ok <==> env.found && user in old(users) && env.saved
    {
      if !env.found || user !in users {
        return false;
      }
      var account := users[user].(active := active);
      if env.saved {
        users := users[user := account];
      }
      ok := env.saved;
    }
  }
}
