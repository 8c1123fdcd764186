/** POST /login: a corporate-suffix check and a directory lookup by email; no password. */
module AuthRoutes {
  import opened Collections
  import opened Types
  import opened Text
  import opened Http
  import opened MockData

  const EmailRequired := "Email обязателен"
  const CorporateEmailRequired := "Используйте корпоративную почту @zinda.ai"
  const UserNotFound := "Пользователь не найден"
  const CorporateSuffix := "@zinda.ai"
  const TokenPrefix := "mock_token_"

  datatype Session = Session(user: User, token: string)

  /** The stub session token: `mock_token_<id>_<nowMs>`. */
  function MockToken(id: int, nowMs: int): string
  {
    TokenPrefix + IntToString(id) + ['_'] + IntToString(nowMs)
  }

  /** POST /login with body field `email`, at clock reading `nowMs`: 400 for an absent
      or empty email, 400 for a non-corporate one (both before the roster is consulted),
      401 when no user has exactly that email, else the user and a token. */
  function Login(users: seq<User>, email: Option<string>, nowMs: int): (r: Reply<Session>)
    ensures FalsyText(email) ==> r == Fail(400, EmailRequired)
    ensures !FalsyText(email) && !EndsWith(email.value, CorporateSuffix) ==>
              r == Fail(400, CorporateEmailRequired)
    ensures !FalsyText(email) && EndsWith(email.value, CorporateSuffix) ==>
              (r == Fail(401, UserNotFound) <==> forall u :: u in users ==> u.email != email.value)
    ensures r.Fail? <==> FalsyText(email) || !EndsWith(email.value, CorporateSuffix) ||
                         forall u :: u in users ==> u.email != email.value
    ensures r.Ok? ==>
              && r.code == 200 && r.data.user in users && r.data.user.email == email.value
              && Some(r.data.user) == FindUserByEmail(users, email.value)
              && r.data.token == MockToken(r.data.user.id, nowMs)
  {
    if FalsyText(email) then Fail(400, EmailRequired)
    else if !EndsWith(email.value, CorporateSuffix) then Fail(400, CorporateEmailRequired)
    else match FindUserByEmail(users, email.value)
      case None => Fail(401, UserNotFound)
      case Some(u) => Ok(200, Session(u, MockToken(u.id, nowMs)))
  }

  /** Every roster user with a corporate email and an email no one else has can
      log in, and gets back exactly that user. */
  lemma LoginFindsMember(users: seq<User>, u: User, nowMs: int)
    requires UniqueEmails(users)
    requires u in users
    requires EndsWith(u.email, CorporateSuffix)
    ensures Login(users, Some(u.email), nowMs) == Ok(200, Session(u, MockToken(u.id, nowMs)))
  {
    FindUserByEmailOfMember(users, u);
  }

  /** The token determines the user id it was issued for. */
  lemma MockTokenDeterminesId(a: int, b: int, nowMs: int)
    requires MockToken(a, nowMs) == MockToken(b, nowMs)
    ensures a == b
  {
    var sa, sb, sn := IntToString(a), IntToString(b), IntToString(nowMs);
    assert MockToken(a, nowMs) == TokenPrefix + (sa + ['_'] + sn);
    assert MockToken(b, nowMs) == TokenPrefix + (sb + ['_'] + sn);
    DropCommonPrefix(TokenPrefix, sa + ['_'] + sn, sb + ['_'] + sn);
    DropCommonSuffix(sa + ['_'], sb + ['_'], sn);
    DropCommonSuffix(sa, sb, ['_']);
    IntToStringInjective(a, b);
  }
}
