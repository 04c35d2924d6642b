/** The refresh-token table, the four calls that use it, and the administrator's switch that
    deactivates an account. Rows are keyed by the token, its hash being taken as collision-free;
    minted tokens may repeat. */
module RefreshTokens {
  import opened Common
  import opened Text

  type UserId = nat
  type Token = string

  datatype Account = Account(email: string, active: bool)

  datatype Row = Row(user: UserId, expires: int, revoked: Option<int>)

  datatype State = State(users: map<UserId, Account>, rows: map<Token, Row>)

  const EMPTY := State(map[], map[])

  /** What the database, the clock and the token generator do during one call. */
  datatype Env = Env(now: int, ttl: int, readable: bool, created: bool, found: bool, minted: Option<Token>, saved: bool,
                     stored: bool)

  datatype Call =
    | Register(email: string, id: UserId, env: Env)
    | Login(email: string, passwordMatches: bool, env: Env)
    | Refresh(token: Token, claims: Option<UserId>, env: Env)
    | Logout(token: Token, env: Env)
    | SetActive(user: UserId, active: bool, env: Env)

  // ---------------------------------------------------------------- what one call does

  /** Creates a row; the hash is unique, so an existing row stays as it is. */
  function Store(rows: map<Token, Row>, user: UserId, token: Token, env: Env): map<Token, Row> {
    if env.stored && token !in rows then rows[token := Row(user, env.now + env.ttl, None)] else rows
  }

  function Revoke(rows: map<Token, Row>, token: Token, now: int, saved: bool): map<Token, Row> {
    if saved && token in rows then rows[token := rows[token].(revoked := Some(now))] else rows
  }

  function Issue(s: State, user: UserId, env: Env): State {
    if env.minted.Some? then s.(rows := Store(s.rows, user, env.minted.value, env)) else s
  }

  predicate Known(s: State, email: string) {
    exists u :: u in s.users && s.users[u].email == email
  }

  /** The account with the email; emails are unique. */
  ghost function Owner(s: State, email: string): (u: UserId)
    requires Known(s, email)
    ensures u in s.users && s.users[u].email == email
  {
    var u :| u in s.users && s.users[u].email == email;
    u
  }

  predicate Admits(s: State, c: Call)
    requires c.Register?
  {
    c.env.readable && !Known(s, c.email) && c.env.created && c.id !in s.users
  }

  ghost predicate Recognizes(s: State, c: Call)
    requires c.Login?
  {
    c.env.readable && Known(s, c.email) && s.users[Owner(s, c.email)].active && c.passwordMatches
  }

  predicate Valid(row: Row, now: int) {
    row.revoked.None? && now < row.expires
  }

  predicate Accepts(s: State, c: Call)
    requires c.Refresh?
  {
    && c.claims.Some? && c.env.readable && c.token in s.rows
    && s.rows[c.token].user == c.claims.value && Valid(s.rows[c.token], c.env.now)
  }

  /** The presented token's row is revoked before the user is even looked up. */
  ghost function Next(s: State, c: Call): State {
    match c
    case Register(email, id, env) =>
      if Admits(s, c) then Issue(s.(users := s.users[id := Account(email, true)]), id, env) else s
    case Login(email, _, env) =>
      if Recognizes(s, c) then Issue(s, Owner(s, email), env) else s
    case Refresh(token, claims, env) =>
      if !Accepts(s, c) then s
      else
        var t := s.(rows := Revoke(s.rows, token, env.now, env.saved));
        if env.found && claims.value in s.users then Issue(t, claims.value, env) else t
    case Logout(token, env) => s.(rows := Revoke(s.rows, token, env.now, env.saved))
    case SetActive(user, active, env) =>
      if !env.found || user !in s.users || !env.saved then s
      else s.(users := s.users[user := s.users[user].(active := active)])
  }

  /** The refresh token the call returns, if it succeeds. */
  ghost function Answer(s: State, c: Call): Option<Token> {
    match c
    case Register(_, _, env) => if Admits(s, c) then env.minted else None
    case Login(_, _, env) => if Recognizes(s, c) then env.minted else None
    case Refresh(_, claims, env) => if Accepts(s, c) && env.found && claims.value in s.users then env.minted else None
    case Logout(_, _) => None
    case SetActive(_, _, _) => None
  }

  /** A successful registration or login of the user. */
  ghost predicate EntersFor(s: State, c: Call, user: UserId) {
    && Answer(s, c).Some?
    && ((c.Register? && c.id == user) || (c.Login? && Owner(s, c.email) == user))
  }

  // ---------------------------------------------------------------- runs

  ghost function Play(s: State, tr: seq<Call>): State {
    if tr == [] then s else Next(Play(s, tr[..|tr| - 1]), tr[|tr| - 1])
  }

  ghost function Count(s: State, tr: seq<Call>, p: (State, Call) -> bool): nat {
    if tr == [] then 0
    else
      var init := tr[..|tr| - 1];
      Count(s, init, p) + if p(Play(s, init), tr[|tr| - 1]) then 1 else 0
  }

  predicate Revoked(s: State, token: Token) {
    token in s.rows && s.rows[token].revoked.Some?
  }

  ghost predicate Refreshes(s: State, c: Call, token: Token) {
    c.Refresh? && c.token == token && Answer(s, c).Some?
  }

  /** An accepted refresh whose revocation write was lost. */
  predicate Unsaved(s: State, c: Call, token: Token) {
    c.Refresh? && c.token == token && Accepts(s, c) && !c.env.saved
  }

  ghost function Refreshed(s: State, tr: seq<Call>, token: Token): nat {
    Count(s, tr, (u, c) => Refreshes(u, c, token))
  }

  ghost function Lost(s: State, tr: seq<Call>, token: Token): nat {
    Count(s, tr, (u, c) => Unsaved(u, c, token))
  }

  // ---------------------------------------------------------------- a token refreshes once

  lemma {:induction false} RevocationIsPermanent(s: State, tr: seq<Call>, token: Token)
    requires Revoked(s, token)
    ensures Revoked(Play(s, tr), token) && Play(s, tr).rows[token].user == s.rows[token].user
  {
    if tr != [] {
      RevocationIsPermanent(s, tr[..|tr| - 1], token);
    }
  }

  /** Once a token's row is revoked, by a refresh or a logout, no refresh of it ever succeeds,
      even if the generator mints the same string again. */
  lemma {:induction false} RevokedNeverRefreshes(s: State, tr: seq<Call>, token: Token)
    requires Revoked(s, token)
    ensures Refreshed(s, tr, token) == 0
  {
    if tr != [] {
      RevokedNeverRefreshes(s, tr[..|tr| - 1], token);
      RevocationIsPermanent(s, tr[..|tr| - 1], token);
    }
  }

  /** From any table, a token refreshes at most once more often than its revocation was lost. */
  lemma {:induction false} RefreshedAtMostOnce(s: State, tr: seq<Call>, token: Token)
    ensures Refreshed(s, tr, token) <= 1 + Lost(s, tr, token)
    ensures Refreshed(s, tr, token) <= Lost(s, tr, token) || Revoked(Play(s, tr), token)
  {
    if tr != [] {
      RefreshedAtMostOnce(s, tr[..|tr| - 1], token);
    }
  }

  // ---------------------------------------------------------------- logout

  /** A logout that reached the database ends a token for good exactly when its row existed:
      otherwise the string can still be minted, stored and refreshed. */
  lemma {:induction false} LogoutEndsExactlyStoredTokens(s: State, token: Token, env: Env, id: UserId, email: string)
    requires env.saved && id !in s.users && !Known(s, email)
    ensures token in s.rows <==> forall tr :: Refreshed(Next(s, Logout(token, env)), tr, token) == 0
  {
    var t := Next(s, Logout(token, env));
    if token in s.rows {
      forall tr ensures Refreshed(t, tr, token) == 0 {
        RevokedNeverRefreshes(t, tr, token);
      }
    } else {
      var e := Env(0, 1, true, true, true, Some(token), true, true);
      var tr := [Register(email, id, e), Refresh(token, Some(id), e)];
      assert tr[..1][..0] == [] && tr[..1] == [Register(email, id, e)];
      assert Play(t, []) == t && Play(t, tr[..1]) == Next(t, tr[0]);
      assert Refreshes(Play(t, tr[..1]), tr[1], token);
      assert Refreshed(t, tr, token) >= 1;
    }
  }

  // ---------------------------------------------------------------- whether the returned token is usable

  /** The user can refresh with the token at time `now`: some refresh then succeeds. */
  ghost predicate Refreshable(s: State, token: Token, user: UserId, now: int) {
    exists env: Env :: env.now == now && Answer(s, Refresh(token, Some(user), env)).Some?
  }

  ghost function Beneficiary(s: State, c: Call): UserId
    requires Answer(s, c).Some?
  {
    match c
    case Register(_, id, _) => id
    case Login(email, _, _) => Owner(s, email)
    case Refresh(_, claims, _) => claims.value
  }

  /** What a refresh needs of the tables. */
  predicate Usable(s: State, token: Token, user: UserId, now: int) {
    user in s.users && token in s.rows && s.rows[token].user == user && Valid(s.rows[token], now)
  }

  lemma {:induction false} UsableMeansRefreshable(s: State, token: Token, user: UserId, now: int)
    ensures Refreshable(s, token, user, now) <==> Usable(s, token, user, now)
  {
    if Usable(s, token, user, now) {
      var env := Env(now, 1, true, true, true, Some(token), true, true);
      assert Answer(s, Refresh(token, Some(user), env)) == Some(token);
    }
  }

  /** No call of the run presents the token or is given it by the generator. */
  predicate LeavesAlone(tr: seq<Call>, token: Token) {
    forall i | 0 <= i < |tr| ::
      && tr[i].env.minted != Some(token)
      && (tr[i].Refresh? || tr[i].Logout? ==> tr[i].token != token)
  }

  lemma {:induction false} RowLeftAlone(s: State, tr: seq<Call>, token: Token, user: UserId)
    requires LeavesAlone(tr, token)
    ensures var t := Play(s, tr);
            && (token in t.rows <==> token in s.rows) && (token in s.rows ==> t.rows[token] == s.rows[token])
            && (user in s.users ==> user in t.users)
  {
    if tr != [] {
      RowLeftAlone(s, tr[..|tr| - 1], token, user);
    }
  }

  /** A returned token can be refreshed by its user at a later time, whatever other calls come in
      between, exactly when its row has not expired by then and is either new and was stored, or
      was already the user's, unrevoked, and not revoked by this very call. */
  lemma {:induction false} ReturnedTokenIsUsable(s: State, c: Call, tr: seq<Call>, now: int)
    requires Answer(s, c).Some? && LeavesAlone(tr, Answer(s, c).value)
    ensures var token, user := Answer(s, c).value, Beneficiary(s, c);
            Refreshable(Play(Next(s, c), tr), token, user, now) <==>
              if token in s.rows then
                s.rows[token].user == user && Valid(s.rows[token], now)
                  && !(c.Refresh? && c.token == token && c.env.saved)
              else c.env.stored && now < c.env.now + c.env.ttl
  {
    var token, user := Answer(s, c).value, Beneficiary(s, c);
    RowLeftAlone(Next(s, c), tr, token, user);
    UsableMeansRefreshable(Play(Next(s, c), tr), token, user, now);
    BeneficiaryIsKnown(s, c);
  }

  lemma {:induction false} BeneficiaryIsKnown(s: State, c: Call)
    requires Answer(s, c).Some?
    ensures Beneficiary(s, c) in Next(s, c).users
  {
  }

  /** So a refresh that mints the string it was given returns a token that is already dead. */
  lemma {:induction false} SameStringIsDead(s: State, c: Call, tr: seq<Call>)
    requires c.Refresh? && c.env.saved && Answer(s, c) == Some(c.token)
    ensures Refreshed(Next(s, c), tr, c.token) == 0
  {
    RevokedNeverRefreshes(Next(s, c), tr, c.token);
  }

  // ---------------------------------------------------------------- deactivated accounts

  ghost predicate LogsIn(s: State, c: Call, user: UserId) {
    c.Login? && Answer(s, c).Some? && Owner(s, c.email) == user
  }

  predicate Inactive(s: State, user: UserId) {
    user in s.users && !s.users[user].active
  }

  /** Only an account's own active user with the right password logs in, in any run. */
  lemma {:induction false} OnlyTheOwnerLogsIn(s: State, tr: seq<Call>, user: UserId)
    ensures Count(s, tr, (u, c) => LogsIn(u, c, user)) <= Count(s, tr, (u, c) => Proves(u, c, user))
    ensures Count(s, tr, (u, c) => LogsIn(u, c, user) && !Proves(u, c, user)) == 0
  {
    if tr != [] {
      OnlyTheOwnerLogsIn(s, tr[..|tr| - 1], user);
    }
  }

  /** A login with the right password for the email of this active account. */
  predicate Proves(s: State, c: Call, user: UserId) {
    && c.Login? && c.passwordMatches
    && user in s.users && s.users[user].active && s.users[user].email == c.email
  }

  predicate NeverReactivates(tr: seq<Call>, user: UserId) {
    forall i | 0 <= i < |tr| :: tr[i].SetActive? && tr[i].user == user ==> !tr[i].active
  }

  lemma {:induction false} InactiveNeverLogsIn(s: State, tr: seq<Call>, user: UserId)
    requires Inactive(s, user) && NeverReactivates(tr, user)
    ensures Inactive(Play(s, tr), user) && Count(s, tr, (u, c) => LogsIn(u, c, user)) == 0
  {
    if tr != [] {
      InactiveNeverLogsIn(s, tr[..|tr| - 1], user);
    }
  }

  /** Deactivating an account ends its logins until it is activated again, and nothing else: its
      tokens go on refreshing exactly as if it had not happened. */
  lemma {:induction false} DeactivationEndsLoginsAlone(s: State, user: UserId, env: Env, tr: seq<Call>, token: Token,
                                                       now: int)
    requires user in s.users && env.found && env.saved
    ensures var t := Next(s, SetActive(user, false, env));
            && (NeverReactivates(tr, user) ==> Count(t, tr, (u, c) => LogsIn(u, c, user)) == 0)
            && (Refreshable(t, token, user, now) <==> Refreshable(s, token, user, now))
            && (LeavesAlone(tr, token) ==>
                  (Refreshable(Play(t, tr), token, user, now) <==> Refreshable(s, token, user, now)))
  {
    var t := Next(s, SetActive(user, false, env));
    if NeverReactivates(tr, user) {
      InactiveNeverLogsIn(t, tr, user);
    }
    UsableMeansRefreshable(s, token, user, now);
    UsableMeansRefreshable(t, token, user, now);
    if LeavesAlone(tr, token) {
      RowLeftAlone(t, tr, token, user);
      UsableMeansRefreshable(Play(t, tr), token, user, now);
    }
  }

  /** The token held after the run: the one its last call returned. */
  ghost function Held(s: State, tr: seq<Call>, token: Token): Token {
    if tr == [] then token
    else
      var answer := Answer(Play(s, tr[..|tr| - 1]), tr[|tr| - 1]);
      if answer.Some? then answer.value else token
  }

  /** Refreshes by the user, `step` apart from `now` on, each of the token the one before returned,
      and all of them successful. */
  ghost predicate Session(s: State, tr: seq<Call>, token: Token, user: UserId, now: int, step: nat, ttl: nat) {
    tr == [] ||
    var init, c := tr[..|tr| - 1], tr[|tr| - 1];
    && Session(s, init, token, user, now, step, ttl)
    && c.Refresh? && c.claims == Some(user) && c.token == Held(s, init, token) && Answer(Play(s, init), c).Some?
    && c.env.now == now + |init| * step && c.env.ttl == ttl
  }

  /** A session never has to end: from one usable token any number of refreshes can follow, none later
      than the token before it lasts, whether the account is active or not. */
  lemma {:induction false} SessionsGoOn(s: State, token: Token, user: UserId, now: int, step: nat, ttl: nat, n: nat)
    returns (tr: seq<Call>)
    requires Usable(s, token, user, now) && step < ttl
    ensures |tr| == n && Session(s, tr, token, user, now, step, ttl)
    ensures Usable(Play(s, tr), Held(s, tr, token), user, now + n * step)
  {
    tr := [];
    if n > 0 {
      var init := SessionsGoOn(s, token, user, now, step, ttl, n - 1);
      var t := Play(s, init);
      var minted := FreshString(t.rows.Keys);
      var env := Env(now + (n - 1) * step, ttl, true, true, true, Some(minted), true, true);
      tr := init + [Refresh(Held(s, init, token), Some(user), env)];
      assert tr[..n - 1] == init;
      assert n * step == (n - 1) * step + step;
    }
  }

  // ---------------------------------------------------------------- unrevoked rows

  function LiveTokens(s: State, user: UserId): set<Token> {
    set t | t in s.rows && s.rows[t].user == user && s.rows[t].revoked.None?
  }

  predicate UnsavedFor(s: State, c: Call, user: UserId) {
    c.Refresh? && Accepts(s, c) && c.claims.value == user && !c.env.saved
  }

  lemma {:induction false} IssueAddsOne(s: State, u: UserId, env: Env, user: UserId)
    ensures |LiveTokens(Issue(s, u, env), user)| <= |LiveTokens(s, user)|
            + if u == user && env.minted.Some? then 1 else 0
  {
    var t := Issue(s, u, env);
    if u == user && env.minted.Some? {
      Within(LiveTokens(t, user), LiveTokens(s, user), {env.minted.value});
    } else {
      assert LiveTokens(t, user) == LiveTokens(s, user);
    }
  }

  lemma {:induction false} Within(a: set<Token>, b: set<Token>, c: set<Token>)
    requires a <= b + c && |c| <= 1
    ensures |a| <= |b| + 1
  {
    Smaller(a, b + c);
  }

  lemma {:induction false} Smaller(a: set<Token>, b: set<Token>)
    requires a <= b
    ensures |a| <= |b|
  {
    assert b == a + (b - a);
  }

  lemma {:induction false} RevokeRemovesOne(s: State, token: Token, now: int, user: UserId)
    requires token in LiveTokens(s, user)
    ensures |LiveTokens(s.(rows := Revoke(s.rows, token, now, true)), user)| == |LiveTokens(s, user)| - 1
  {
    assert LiveTokens(s.(rows := Revoke(s.rows, token, now, true)), user) == LiveTokens(s, user) - {token};
  }

  lemma {:induction false} StepBoundsLive(s: State, c: Call, user: UserId)
    ensures |LiveTokens(Next(s, c), user)|
         <= |LiveTokens(s, user)| + (if EntersFor(s, c, user) then 1 else 0) + if UnsavedFor(s, c, user) then 1 else 0
  {
    match c
    case Register(email, id, env) =>
      if Admits(s, c) {
        var t := s.(users := s.users[id := Account(email, true)]);
        assert LiveTokens(t, user) == LiveTokens(s, user);
        IssueAddsOne(t, id, env, user);
      }
    case Login(email, _, env) =>
      if Recognizes(s, c) {
        IssueAddsOne(s, Owner(s, email), env, user);
      }
    case Refresh(token, claims, env) =>
      if Accepts(s, c) {
        var t := s.(rows := Revoke(s.rows, token, env.now, env.saved));
        if env.saved && claims.value == user {
          RevokeRemovesOne(s, token, env.now, user);
        } else {
          assert LiveTokens(t, user) == LiveTokens(s, user);
        }
        IssueAddsOne(t, claims.value, env, user);
      }
    case Logout(token, env) =>
      Smaller(LiveTokens(Next(s, c), user), LiveTokens(s, user));
    case SetActive(_, _, _) =>
      assert LiveTokens(Next(s, c), user) == LiveTokens(s, user);
  }

  /** A user's unrevoked rows never outnumber the user's registrations and logins, plus the
      refreshes whose revocation was lost: refreshing does not multiply sessions. */
  lemma {:induction false} LiveRowsBound(tr: seq<Call>, user: UserId)
    ensures |LiveTokens(Play(EMPTY, tr), user)|
         <= Count(EMPTY, tr, (s, c) => EntersFor(s, c, user)) + Count(EMPTY, tr, (s, c) => UnsavedFor(s, c, user))
  {
    if tr == [] {
      assert LiveTokens(EMPTY, user) == {};
    } else {
      LiveRowsBound(tr[..|tr| - 1], user);
      StepBoundsLive(Play(EMPTY, tr[..|tr| - 1]), tr[|tr| - 1], user);
    }
  }
}
