/** `OidcState`: the row that remembers, for one OAuth `state` value, the PKCE code
  * verifier and the local user who started the authorization. A mutable record with an
  * all-arguments constructor and generated setters; `StateRow` is a persisted row. */
module OidcStates {
  import opened Wrappers

  const CODE_VERIFIER_MAX_LENGTH: nat := 512

  /** A persisted row: `state` is the primary key; the other columns are NOT NULL and
    * the verifier column holds at most 512 characters. Times are epoch seconds. */
  datatype StateRow = StateRow(state: string, codeVerifier: string, userId: string, createdAt: int)

  predicate FitsColumns(row: StateRow) {
    |row.codeVerifier| <= CODE_VERIFIER_MAX_LENGTH
  }

  class OidcState {
    var state: Option<string>
    var codeVerifier: Option<string>
    var userId: Option<string>
    var createdAt: Option<int>

    /** The default constructor: every field null. */
    constructor Empty()
      ensures state == None && codeVerifier == None && userId == None && createdAt == None
    {
      state, codeVerifier, userId, createdAt := None, None, None, None;
    }

    /** The all-arguments constructor stores its arguments unchanged. */
    constructor (state: Option<string>, codeVerifier: Option<string>, userId: Option<string>, createdAt: Option<int>)
      ensures this.state == state && this.codeVerifier == codeVerifier
      ensures this.userId == userId && this.createdAt == createdAt
    {
      this.state := state;
      this.codeVerifier := codeVerifier;
      this.userId := userId;
      this.createdAt := createdAt;
    }

    method SetState(state: Option<string>)
      modifies this`state
      ensures this.state == state
    {
      this.state := state;
    }

    method SetCodeVerifier(codeVerifier: Option<string>)
      modifies this`codeVerifier
      ensures this.codeVerifier == codeVerifier
    {
      this.codeVerifier := codeVerifier;
    }

    method SetUserId(userId: Option<string>)
      modifies this`userId
      ensures this.userId == userId
    {
      this.userId := userId;
    }

    method SetCreatedAt(createdAt: Option<int>)
      modifies this`createdAt
      ensures this.createdAt == createdAt
    {
      this.createdAt := createdAt;
    }

    /** What the table accepts: a key, the NOT NULL columns set, the verifier short enough. */
    predicate Persistable()
      reads this
    {
      state.Some? && codeVerifier.Some? && userId.Some? && createdAt.Some?
      && |codeVerifier.value| <= CODE_VERIFIER_MAX_LENGTH
    }

    function Row(): (row: StateRow)
      reads this
      requires Persistable()
      ensures FitsColumns(row) && row.state == state.value
      ensures row.codeVerifier == codeVerifier.value && row.userId == userId.value
      ensures row.createdAt == createdAt.value
    {
      StateRow(state.value, codeVerifier.value, userId.value, createdAt.value)
    }
  }
}
