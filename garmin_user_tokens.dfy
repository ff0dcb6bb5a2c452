/** `GarminUserTokens`: one row of `garmin_user_tokens`, the tokens that link a local user
  * to one Garmin account. The entity is a mutable record updated field by field through
  * its setters; `TokenRow` is the value a persisted row holds. */
module UserTokens {
  import opened Wrappers
  import opened TokensIds

  /** Stored by name (`EnumType.STRING`) in a non-null column. */
  datatype ConnectStatus = CONNECTED | DISCONNECTED

  /** A persisted row. The NOT NULL columns (tokens, expiries, status) are plain values;
    * `createdAt` and `lastModifiedAt` are nullable columns. Times are epoch seconds. */
  datatype TokenRow = TokenRow(
    id: TokenKey,
    accessToken: string,
    accessTokenExpiry: int,
    refreshToken: string,
    refreshTokenExpiry: int,
    createdAt: Option<int>,
    lastModifiedAt: Option<int>,
    connectStatus: ConnectStatus)

  class GarminUserTokens {
    var id: Option<TokenKey>
    var accessToken: Option<string>
    var accessTokenExpiry: Option<int>
    var refreshToken: Option<string>
    var refreshTokenExpiry: Option<int>
    var createdAt: Option<int>
    var lastModifiedAt: Option<int>
    var connectStatus: Option<ConnectStatus>

    /** `new GarminUserTokens()`: every field null. */
    constructor ()
      ensures id == None && accessToken == None && accessTokenExpiry == None
      ensures refreshToken == None && refreshTokenExpiry == None
      ensures createdAt == None && lastModifiedAt == None && connectStatus == None
    {
      id, accessToken, accessTokenExpiry := None, None, None;
      refreshToken, refreshTokenExpiry := None, None;
      createdAt, lastModifiedAt, connectStatus := None, None, None;
    }

    /** The entity the repository materialises from a stored row. */
    constructor Load(row: TokenRow)
      ensures Persistable() && Row() == row
    {
      id := Some(row.id);
      accessToken := Some(row.accessToken);
      accessTokenExpiry := Some(row.accessTokenExpiry);
      refreshToken := Some(row.refreshToken);
      refreshTokenExpiry := Some(row.refreshTokenExpiry);
      createdAt := row.createdAt;
      lastModifiedAt := row.lastModifiedAt;
      connectStatus := Some(row.connectStatus);
    }

    /** What the table accepts: an id and every NOT NULL column set. */
    predicate Persistable()
      reads this
    {
      id.Some? && accessToken.Some? && accessTokenExpiry.Some?
      && refreshToken.Some? && refreshTokenExpiry.Some? && connectStatus.Some?
    }

    /** The row saving this entity stores. */
    function Row(): (row: TokenRow)
      reads this
      requires Persistable()
      ensures row.id == id.value && row.connectStatus == connectStatus.value
    {
      TokenRow(id.value, accessToken.value, accessTokenExpiry.value, refreshToken.value,
               refreshTokenExpiry.value, createdAt, lastModifiedAt, connectStatus.value)
    }

    // Each setter's frame names its one field: nothing else can change.

    method SetId(id: Option<TokenKey>)
      modifies this`id
      ensures this.id == id
    {
      this.id := id;
    }

    method SetAccessToken(accessToken: Option<string>)
      modifies this`accessToken
      ensures this.accessToken == accessToken
    {
      this.accessToken := accessToken;
    }

    method SetAccessTokenExpiry(accessTokenExpiry: Option<int>)
      modifies this`accessTokenExpiry
      ensures this.accessTokenExpiry == accessTokenExpiry
    {
      this.accessTokenExpiry := accessTokenExpiry;
    }

    method SetRefreshToken(refreshToken: Option<string>)
      modifies this`refreshToken
      ensures this.refreshToken == refreshToken
    {
      this.refreshToken := refreshToken;
    }

    method SetRefreshTokenExpiry(refreshTokenExpiry: Option<int>)
      modifies this`refreshTokenExpiry
      ensures this.refreshTokenExpiry == refreshTokenExpiry
    {
      this.refreshTokenExpiry := refreshTokenExpiry;
    }

    method SetCreatedAt(createdAt: Option<int>)
      modifies this`createdAt
      ensures this.createdAt == createdAt
    {
      this.createdAt := createdAt;
    }

    method SetLastModifiedAt(lastModifiedAt: Option<int>)
      modifies this`lastModifiedAt
      ensures this.lastModifiedAt == lastModifiedAt
    {
      this.lastModifiedAt := lastModifiedAt;
    }

    method SetConnectStatus(connectStatus: Option<ConnectStatus>)
      modifies this`connectStatus
      ensures this.connectStatus == connectStatus
    {
      this.connectStatus := connectStatus;
    }
  }
}
