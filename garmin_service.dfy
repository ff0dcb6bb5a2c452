/** `GarminService.exchangeCodeForToken`: the OAuth 2.0 authorization-code exchange
  * (section 4.1.3 of RFC 6749, with the PKCE `code_verifier` of section 4.5 of RFC 7636
  * and HTTP Basic client authentication, section 2 of RFC 7617), followed by the
  * reconciliation of the local user's token rows: the row of the Garmin account just
  * authorized becomes CONNECTED and every other row of that user DISCONNECTED.
  * The token endpoint, the user-id endpoint and Base64 are function parameters; the
  * clock is `now` (epoch seconds). */
module Service {
  import opened Wrappers
  import JavaLang
  import opened TokensIds
  import opened UserTokens
  import opened TokensRepository
  import opened OidcStates
  import opened OidcStateRepository

  datatype AuthorizationRequest = AuthorizationRequest(code: string, state: string)

  /** The fields of `TokenResponse` the exchange reads; lifetimes are in seconds. */
  datatype TokenResponse = TokenResponse(accessToken: string, refreshToken: string,
                                         expiresIn: int, refreshTokenExpiresIn: int)

  /** Spring's `HttpStatus`; its `toString` is the code, a space and the constant's name. */
  datatype HttpStatus = HttpStatus(code: nat, name: string)

  function StatusText(status: HttpStatus): string {
    JavaLang.NatToString(status.code) + " " + status.name
  }

  /** The POST sent to the token endpoint. */
  datatype TokenRequest = TokenRequest(url: string, contentType: string, authorization: string, body: string)

  /** What `restTemplate.postForEntity` does: respond, or throw (the transport, or the
    * template's own exception for an error status). */
  datatype TokenCall = Responded(status: HttpStatus, body: Option<TokenResponse>) | TokenCallThrew(message: string)

  /** What `fetchUserId(accessToken)` does. */
  datatype UserIdCall = UserIdResponse(userId: string) | UserIdCallThrew(message: string)

  datatype Config = Config(clientId: string, clientSecret: string, redirectUri: string, tokenUrl: string)

  /** The two `GarminApiException`s the method throws. */
  datatype Failure = InvalidState(state: string) | TokenExchangeFailed(causeMessage: string)

  function Message(f: Failure): string {
    match f
    case InvalidState(state) => "Invalid state: " + state
    case TokenExchangeFailed(cause) => "Token exchange failed: " + cause
  }

  /** The message of the exception thrown inside the `try` for a non-OK or empty response,
    * which the `catch` then wraps. */
  function NotOkMessage(status: HttpStatus): string {
    "Failed to exchange code for token: HTTP " + StatusText(status)
  }

  /** The form body, with the values inserted as they are (no URL encoding). */
  function TokenRequestBody(code: string, state: string, codeVerifier: string, redirectUri: string): string {
    "grant_type=authorization_code" + "&" + "code=" + code + "&" + "state=" + state
      + "&" + "code_verifier=" + codeVerifier + "&" + "redirect_uri=" + redirectUri
  }

  function BuildTokenRequest(config: Config, request: AuthorizationRequest, codeVerifier: string,
                             base64: string -> string): (r: TokenRequest)
    ensures r.url == config.tokenUrl && r.contentType == "application/x-www-form-urlencoded"
    ensures r.authorization == "Basic " + base64(config.clientId + ":" + config.clientSecret)
    ensures r.body == TokenRequestBody(request.code, request.state, codeVerifier, config.redirectUri)
  {
    TokenRequest(config.tokenUrl, "application/x-www-form-urlencoded",
                 "Basic " + base64(config.clientId + ":" + config.clientSecret),
                 TokenRequestBody(request.code, request.state, codeVerifier, config.redirectUri))
  }

  /** Splitting a form body at `sep`, the way a server separates its fields. */
  function Split(s: string, sep: char): (parts: seq<string>)
    ensures |parts| >= 1
  {
    if s == [] then [[]]
    else
      var rest := Split(s[1..], sep);
      if s[0] == sep then [[]] + rest else [[s[0]] + rest[0]] + rest[1..]
  }

  lemma {:induction false} SplitWithoutSeparator(a: string, sep: char)
    requires sep !in a
    ensures Split(a, sep) == [a]
    decreases |a|
  {
    if a != [] {
      SplitWithoutSeparator(a[1..], sep);
      assert [a[0]] + a[1..] == a;
    }
  }

  lemma {:induction false} SplitAtFirstSeparator(a: string, sep: char, b: string)
    requires sep !in a
    ensures Split(a + [sep] + b, sep) == [a] + Split(b, sep)
    decreases |a|
  {
    if a == [] {
      assert a + [sep] + b == [sep] + b;
      assert ([sep] + b)[1..] == b;
    } else {
      SplitAtFirstSeparator(a[1..], sep, b);
      assert (a + [sep] + b)[1..] == a[1..] + [sep] + b;
      assert [a[0]] + a[1..] == a;
    }
  }

  /** When no value contains `&`, the body splits into exactly the five fields of the
    * authorization-code token request, in order. */
  lemma TokenRequestBodyFields(code: string, state: string, codeVerifier: string, redirectUri: string)
    requires '&' !in code && '&' !in state && '&' !in codeVerifier && '&' !in redirectUri
    ensures Split(TokenRequestBody(code, state, codeVerifier, redirectUri), '&')
         == ["grant_type=authorization_code", "code=" + code, "state=" + state,
             "code_verifier=" + codeVerifier, "redirect_uri=" + redirectUri]
  {
    var f0, f1, f2, f3, f4 := "grant_type=authorization_code", "code=" + code, "state=" + state,
                              "code_verifier=" + codeVerifier, "redirect_uri=" + redirectUri;
    TokenRequestBodyShape(code, state, codeVerifier, redirectUri);
    NoSeparatorInField("code=", code);
    NoSeparatorInField("state=", state);
    NoSeparatorInField("code_verifier=", codeVerifier);
    NoSeparatorInField("redirect_uri=", redirectUri);
    SplitWithoutSeparator(f4, '&');
    SplitAtFirstSeparator(f3, '&', f4);
    SplitAtFirstSeparator(f2, '&', f3 + ['&'] + f4);
    SplitAtFirstSeparator(f1, '&', f2 + ['&'] + (f3 + ['&'] + f4));
    SplitAtFirstSeparator(f0, '&', f1 + ['&'] + (f2 + ['&'] + (f3 + ['&'] + f4)));
  }

  lemma NoSeparatorInField(name: string, value: string)
    requires '&' !in name && '&' !in value
    ensures '&' !in name + value
  {
  }

  lemma TokenRequestBodyShape(code: string, state: string, codeVerifier: string, redirectUri: string)
    ensures TokenRequestBody(code, state, codeVerifier, redirectUri)
         == "grant_type=authorization_code" + ['&'] + (("code=" + code) + ['&'] + (("state=" + state) + ['&']
            + (("code_verifier=" + codeVerifier) + ['&'] + ("redirect_uri=" + redirectUri))))
  {
  }

  /** The tokens and the Garmin account an exchange obtained. */
  datatype Grant = Grant(tokens: TokenResponse, garminUserId: string)

  /** The remote half: the token call's outcome, then, on a 200 with a body, the user-id
    * lookup. Every failure surfaces as "Token exchange failed: ...". */
  function RemoteExchange(call: TokenCall, fetchUserId: string -> UserIdCall): (r: Result<Grant, Failure>)
    ensures r.Failure? ==> r.error.TokenExchangeFailed?
    ensures r.Success? <==> call.Responded? && call.status.code == 200 && call.body.Some?
                            && fetchUserId(call.body.value.accessToken).UserIdResponse?
    ensures r.Success? ==>
      (&& r.value.tokens == call.body.value
       && r.value.garminUserId == fetchUserId(call.body.value.accessToken).userId)
  {
    match call
    case TokenCallThrew(message) => Failure(TokenExchangeFailed(message))
    case Responded(status, body) =>
      if status.code == 200 && body.Some? then
        match fetchUserId(body.value.accessToken)
        case UserIdCallThrew(message) => Failure(TokenExchangeFailed(message))
        case UserIdResponse(garminUserId) => Success(Grant(body.value, garminUserId))
      else Failure(TokenExchangeFailed(NotOkMessage(status)))
  }

  /** The matching row: new tokens and expiries, modified now, CONNECTED. */
  function Connect(row: TokenRow, grant: Grant, now: int): TokenRow {
    row.(accessToken := grant.tokens.accessToken,
         refreshToken := grant.tokens.refreshToken,
         accessTokenExpiry := now + grant.tokens.expiresIn,
         refreshTokenExpiry := now + grant.tokens.refreshTokenExpiresIn,
         lastModifiedAt := Some(now),
         connectStatus := CONNECTED)
  }

  /** Any other row of the user: DISCONNECTED, modified now, tokens kept. */
  function Disconnect(row: TokenRow, now: int): TokenRow {
    row.(connectStatus := DISCONNECTED, lastModifiedAt := Some(now))
  }

  /** The row created when the user had none for this Garmin account. */
  function NewConnection(userId: string, grant: Grant, now: int): TokenRow {
    TokenRow(TokenKey(userId, grant.garminUserId),
             grant.tokens.accessToken, now + grant.tokens.expiresIn,
             grant.tokens.refreshToken, now + grant.tokens.refreshTokenExpiresIn,
             Some(now), Some(now), CONNECTED)
  }

  /** The table once the rows with keys in `done`, other than `key`, are disconnected. */
  function DisconnectOthers(rows: Rows, key: TokenKey, done: set<TokenKey>, now: int): (r: Rows)
    ensures r.Keys == rows.Keys
  {
    map k | k in rows :: if k in done && k != key then Disconnect(rows[k], now) else rows[k]
  }

  /** The table after a successful exchange for local user `userId`. */
  function Reconcile(rows: Rows, userId: string, grant: Grant, now: int): Rows {
    var key := TokenKey(userId, grant.garminUserId);
    DisconnectOthers(rows, key, UserKeys(rows, userId), now)[
      key := if key in rows then Connect(rows[key], grant, now) else NewConnection(userId, grant, now)]
  }

  /** The table after the call and what the call returns or throws. */
  datatype Outcome = Outcome(result: Result<TokenRow, Failure>, table: Rows)

  function Exchange(rows: Rows, states: StateRows, config: Config, request: AuthorizationRequest,
                    base64: string -> string, post: TokenRequest -> TokenCall,
                    fetchUserId: string -> UserIdCall, now: int): (o: Outcome)
    requires WellKeyed(rows)
    ensures request.state !in states ==> o == Outcome(Failure(InvalidState(request.state)), rows)
    ensures o.result.Failure? ==> o.table == rows
    ensures o.result.Success? ==>
      (&& request.state in states
       && o.result.value.id.userId == states[request.state].userId
       && o.result.value.connectStatus == CONNECTED
       && o.result.value.id in o.table
       && o.table[o.result.value.id] == o.result.value)
    ensures o.result.Success? ==>
      var call := post(BuildTokenRequest(config, request, states[request.state].codeVerifier, base64));
      && RemoteExchange(call, fetchUserId).Success?
      && var grant := RemoteExchange(call, fetchUserId).value;
      && o.result.value.id == TokenKey(states[request.state].userId, grant.garminUserId)
      && o.result.value.accessToken == grant.tokens.accessToken
      && o.result.value.refreshToken == grant.tokens.refreshToken
      && o.table == Reconcile(rows, states[request.state].userId, grant, now)
    ensures request.state in states ==>
      var g := RemoteExchange(post(BuildTokenRequest(config, request, states[request.state].codeVerifier, base64)),
                              fetchUserId);
      && (o.result.Success? <==> g.Success?)
      && (g.Failure? ==> o.result == Failure(g.error))
  {
    if request.state !in states then Outcome(Failure(InvalidState(request.state)), rows)
    else
      var oidcState := states[request.state];
      var call := post(BuildTokenRequest(config, request, oidcState.codeVerifier, base64));
      match RemoteExchange(call, fetchUserId)
      case Failure(e) => Outcome(Failure(e), rows)
      case Success(grant) =>
        var table := Reconcile(rows, oidcState.userId, grant, now);
        Outcome(Success(table[TokenKey(oidcState.userId, grant.garminUserId)]), table)
  }

  // ---- What reconciliation guarantees ----

  lemma RowOfTable(t: Rows, row: TokenRow)
    requires WellKeyed(t) && row in t.Values
    ensures row.id in t && t[row.id] == row
  {
    var k :| k in t && t[k] == row;
  }

  lemma ReconcileKeepsWellKeyed(rows: Rows, userId: string, grant: Grant, now: int)
    requires WellKeyed(rows)
    ensures WellKeyed(Reconcile(rows, userId, grant, now))
  {
  }

  /** Only the local user's rows change; the table gains at most the new row. */
  lemma ReconcileTouchesOnlyTheUser(rows: Rows, userId: string, grant: Grant, now: int)
    ensures Reconcile(rows, userId, grant, now).Keys == rows.Keys + {TokenKey(userId, grant.garminUserId)}
    ensures forall k :: k in rows && k.userId != userId ==> Reconcile(rows, userId, grant, now)[k] == rows[k]
  {
  }

  /** The account's row is updated in place (creation time kept) or created. */
  lemma ReconcileConnectsTheAccount(rows: Rows, userId: string, grant: Grant, now: int)
    ensures var key := TokenKey(userId, grant.garminUserId);
      var row := Reconcile(rows, userId, grant, now)[key];
      && row.connectStatus == CONNECTED
      && row.accessToken == grant.tokens.accessToken && row.refreshToken == grant.tokens.refreshToken
      && row.accessTokenExpiry == now + grant.tokens.expiresIn
      && row.refreshTokenExpiry == now + grant.tokens.refreshTokenExpiresIn
      && row.lastModifiedAt == Some(now)
      && row.createdAt == (if key in rows then rows[key].createdAt else Some(now))
  {
  }

  /** Every other row of the user is DISCONNECTED, with its tokens kept. */
  lemma ReconcileDisconnectsTheRest(rows: Rows, userId: string, grant: Grant, now: int)
    ensures forall k :: k in rows && k.userId == userId && k.garminUserId != grant.garminUserId ==>
      Reconcile(rows, userId, grant, now)[k] == rows[k].(connectStatus := DISCONNECTED, lastModifiedAt := Some(now))
  {
  }

  /** The central invariant: afterwards the user has exactly one CONNECTED row, the
    * account's own. */
  lemma {:induction false} ReconcileLeavesOneConnected(rows: Rows, userId: string, grant: Grant, now: int)
    requires WellKeyed(rows)
    ensures var t := Reconcile(rows, userId, grant, now);
      ConnectedRows(t, userId) == {t[TokenKey(userId, grant.garminUserId)]}
  {
    var key := TokenKey(userId, grant.garminUserId);
    var t := Reconcile(rows, userId, grant, now);
    ReconcileKeepsWellKeyed(rows, userId, grant, now);
    forall row | row in ConnectedRows(t, userId)
      ensures row == t[key]
    {
      RowOfTable(t, row);
    }
    assert t[key] in t.Values;
  }

  /** Hence the presumption of `findConnectedByUserId` survives every exchange. */
  lemma {:induction false} ReconcilePreservesAtMostOneConnected(rows: Rows, userId: string, grant: Grant, now: int)
    requires WellKeyed(rows) && AtMostOneConnectedPerUser(rows)
    ensures AtMostOneConnectedPerUser(Reconcile(rows, userId, grant, now))
  {
    var t := Reconcile(rows, userId, grant, now);
    var key := TokenKey(userId, grant.garminUserId);
    forall k1, k2 | k1 in t && k2 in t && k1.userId == k2.userId
      && t[k1].connectStatus == CONNECTED && t[k2].connectStatus == CONNECTED
      ensures k1 == k2
    {
      if k1.userId == userId {
        assert k1 == key && k2 == key;
      } else {
        assert t[k1] == rows[k1] && t[k2] == rows[k2];
      }
    }
  }

  /** A successful exchange leaves the local user exactly one CONNECTED row: the one it
    * returns. */
  lemma ExchangeLeavesOneConnected(rows: Rows, states: StateRows, config: Config, request: AuthorizationRequest,
                                   base64: string -> string, post: TokenRequest -> TokenCall,
                                   fetchUserId: string -> UserIdCall, now: int)
    requires WellKeyed(rows)
    ensures var o := Exchange(rows, states, config, request, base64, post, fetchUserId, now);
      o.result.Success? ==> ConnectedRows(o.table, states[request.state].userId) == {o.result.value}
  {
    var o := Exchange(rows, states, config, request, base64, post, fetchUserId, now);
    if o.result.Success? {
      var oidcState := states[request.state];
      var call := post(BuildTokenRequest(config, request, oidcState.codeVerifier, base64));
      var grant := RemoteExchange(call, fetchUserId).value;
      ReconcileLeavesOneConnected(rows, oidcState.userId, grant, now);
    }
  }

  /** Connecting a user first to G1 and then to another account G2 leaves two rows: G1
    * DISCONNECTED and G2 CONNECTED. */
  lemma ReconnectUnderAnotherAccount(rows: Rows, userId: string, first: Grant, second: Grant, t1: int, t2: int)
    requires UserKeys(rows, userId) == {} && first.garminUserId != second.garminUserId
    ensures var after := Reconcile(Reconcile(rows, userId, first, t1), userId, second, t2);
      && UserKeys(after, userId) == {TokenKey(userId, first.garminUserId), TokenKey(userId, second.garminUserId)}
      && after[TokenKey(userId, first.garminUserId)].connectStatus == DISCONNECTED
      && after[TokenKey(userId, second.garminUserId)].connectStatus == CONNECTED
  {
    var mid := Reconcile(rows, userId, first, t1);
    var after := Reconcile(mid, userId, second, t2);
    assert UserKeys(mid, userId) == {TokenKey(userId, first.garminUserId)};
  }

  // ---- The method ----

  method ExchangeCodeForToken(tokens: TokensTable, states: OidcStateTable, config: Config,
                              request: AuthorizationRequest, base64: string -> string,
                              post: TokenRequest -> TokenCall, fetchUserId: string -> UserIdCall, now: int)
    returns (r: Result<TokenRow, Failure>)
    requires tokens.Valid() && states.Valid()
    modifies tokens
    ensures tokens.Valid()
    ensures Outcome(r, tokens.rows)
         == Exchange(old(tokens.rows), states.rows, config, request, base64, post, fetchUserId, now)
  {
    var found := states.FindById(request.state);
    if found.None? {
      return Failure(InvalidState(request.state));
    }
    var oidcState := found.value;

    var tokenRequest := BuildTokenRequest(config, request, oidcState.codeVerifier, base64);
    var response := post(tokenRequest);
    if response.TokenCallThrew? {
      return Failure(TokenExchangeFailed(response.message));
    }
    if !(response.status.code == 200 && response.body.Some?) {
      return Failure(TokenExchangeFailed(NotOkMessage(response.status)));
    }
    var tokenResponse := response.body.value;
    var userIdResponse := fetchUserId(tokenResponse.accessToken);
    if userIdResponse.UserIdCallThrew? {
      return Failure(TokenExchangeFailed(userIdResponse.message));
    }
    var saved := SaveConnection(tokens, oidcState.userId, Grant(tokenResponse, userIdResponse.userId), now);
    r := Success(saved);
  }

  /** The second half of `exchangeCodeForToken`: walk the user's rows (in the repository's
    * unspecified order), disconnect and save each row of another Garmin account, update
    * the row of this one, or build a new one, and save it. */
  method SaveConnection(tokens: TokensTable, userId: string, grant: Grant, now: int) returns (saved: TokenRow)
    requires tokens.Valid()
    modifies tokens
    ensures tokens.Valid()
    ensures tokens.rows == Reconcile(old(tokens.rows), userId, grant, now)
    ensures saved == tokens.rows[TokenKey(userId, grant.garminUserId)]
  {
    ghost var key := TokenKey(userId, grant.garminUserId);
    ghost var before := tokens.rows;

    var existingTokens := FindAllByUserId(tokens.rows, userId);
    var remaining := existingTokens;
    ghost var done: set<TokenKey> := {};
    var userTokenToSave: GarminUserTokens? := null;
    var isExisting := false;

    while remaining != {}
      invariant tokens.Valid()
      invariant remaining <= existingTokens
      invariant forall row :: row in existingTokens ==> (row in remaining <==> row.id !in done)
      invariant done <= UserKeys(before, userId)
      invariant tokens.rows == DisconnectOthers(before, key, done, now)
      invariant isExisting <==> key in done
      invariant isExisting ==>
        (&& userTokenToSave != null && fresh(userTokenToSave)
         && userTokenToSave.Persistable() && key in before
         && userTokenToSave.Row() == Connect(before[key], grant, now))
      decreases remaining
    {
      var existing :| existing in remaining;
      RowOfTable(before, existing);
      forall row | row in existingTokens && row.id == existing.id
        ensures row == existing
      {
        RowOfTable(before, row);
      }
      remaining := remaining - {existing};
      if existing.id.garminUserId == grant.garminUserId {
        // Same Garmin account: refresh the tokens and connect.
        userTokenToSave := ConnectedEntity(existing, grant, now);
        isExisting := true;
        DisconnectingTheKeyIsNoOp(before, key, done, now);
      } else {
        // Another Garmin account: disconnect.
        DisconnectAndSave(tokens, existing, now);
        DisconnectOneMore(before, key, done, existing.id, now);
      }
      done := done + {existing.id};
    }

    assert done == UserKeys(before, userId) by {
      forall k | k in UserKeys(before, userId)
        ensures k in done
      {
        assert before[k] in existingTokens;
      }
    }

    if !isExisting {
      userTokenToSave := NewTokensEntity(userId, grant, now);
    }
    saved := tokens.Save(userTokenToSave);
  }

  /** The loaded entity of the matching row, refreshed and connected (not yet saved). */
  method ConnectedEntity(existing: TokenRow, grant: Grant, now: int) returns (entity: GarminUserTokens)
    ensures fresh(entity) && entity.Persistable()
    ensures entity.Row() == Connect(existing, grant, now)
  {
    entity := new GarminUserTokens.Load(existing);
    entity.SetAccessToken(Some(grant.tokens.accessToken));
    entity.SetRefreshToken(Some(grant.tokens.refreshToken));
    entity.SetAccessTokenExpiry(Some(now + grant.tokens.expiresIn));
    entity.SetRefreshTokenExpiry(Some(now + grant.tokens.refreshTokenExpiresIn));
    entity.SetLastModifiedAt(Some(now));
    entity.SetConnectStatus(Some(CONNECTED));
  }

  /** The loaded entity of another account's row, disconnected and saved at once. */
  method DisconnectAndSave(tokens: TokensTable, existing: TokenRow, now: int)
    requires tokens.Valid()
    modifies tokens
    ensures tokens.Valid()
    ensures tokens.rows == old(tokens.rows)[existing.id := Disconnect(existing, now)]
  {
    var entity := new GarminUserTokens.Load(existing);
    entity.SetConnectStatus(Some(DISCONNECTED));
    entity.SetLastModifiedAt(Some(now));
    var _ := tokens.Save(entity);
  }

  /** A Garmin account new to this user: a fresh entity, created and connected now. */
  method NewTokensEntity(userId: string, grant: Grant, now: int) returns (entity: GarminUserTokens)
    ensures fresh(entity) && entity.Persistable()
    ensures entity.Row() == NewConnection(userId, grant, now)
  {
    var userTokensId := new GarminUserTokensId.Empty();
    userTokensId.SetUserId(Some(userId));
    userTokensId.SetGarminUserId(Some(grant.garminUserId));
    entity := new GarminUserTokens();
    entity.SetId(userTokensId.Key());
    entity.SetAccessToken(Some(grant.tokens.accessToken));
    entity.SetRefreshToken(Some(grant.tokens.refreshToken));
    entity.SetAccessTokenExpiry(Some(now + grant.tokens.expiresIn));
    entity.SetRefreshTokenExpiry(Some(now + grant.tokens.refreshTokenExpiresIn));
    entity.SetCreatedAt(Some(now));
    entity.SetLastModifiedAt(Some(now));
    entity.SetConnectStatus(Some(CONNECTED));
  }

  lemma DisconnectingTheKeyIsNoOp(rows: Rows, key: TokenKey, done: set<TokenKey>, now: int)
    ensures DisconnectOthers(rows, key, done + {key}, now) == DisconnectOthers(rows, key, done, now)
  {
  }

  lemma DisconnectOneMore(rows: Rows, key: TokenKey, done: set<TokenKey>, k: TokenKey, now: int)
    requires k in rows && k != key
    ensures DisconnectOthers(rows, key, done + {k}, now)
         == DisconnectOthers(rows, key, done, now)[k := Disconnect(rows[k], now)]
  {
  }
}
