/** `GarminUserTokensRepository`: the token table and its four JPQL queries. The queries
  * are read-only, so they are functions of the table; `save` (inherited from
  * `JpaRepository`) is the one operation that changes it. */
module TokensRepository {
  import opened Wrappers
  import opened TokensIds
  import opened UserTokens

  /** The table: at most one row per `(user_id, garmin_user_id)`, by construction of a map. */
  type Rows = map<TokenKey, TokenRow>

  /** Every row is stored under its own id. */
  ghost predicate WellKeyed(t: Rows) {
    forall k :: k in t ==> t[k].id == k
  }

  /** The keys of the rows of local user `userId`. */
  function UserKeys(t: Rows, userId: string): (ks: set<TokenKey>)
    ensures forall k :: k in ks <==> k in t && k.userId == userId
  {
    set k | k in t && k.userId == userId
  }

  /** `SELECT u FROM GarminUserTokens u WHERE u.id.userId = ?1`. The list's order is not
    * specified by the query, so the result is the set of rows. */
  function FindAllByUserId(t: Rows, userId: string): (rows: set<TokenRow>)
    ensures forall row :: row in rows ==> row in t.Values && row.id.userId == userId
    ensures WellKeyed(t) ==> forall k :: k in t && k.userId == userId ==> t[k] in rows
  {
    set row | row in t.Values && row.id.userId == userId
  }

  /** The rows of `userId` whose status is CONNECTED. */
  function ConnectedRows(t: Rows, userId: string): (rows: set<TokenRow>)
    ensures forall row :: row in rows <==>
      row in t.Values && row.id.userId == userId && row.connectStatus == CONNECTED
  {
    set row | row in t.Values && row.id.userId == userId && row.connectStatus == CONNECTED
  }

  /** `SELECT COUNT(u) > 0 ... WHERE u.id.userId = :userId AND u.connectStatus = 'CONNECTED'`. */
  function HasConnectedAccount(t: Rows, userId: string): (b: bool)
    ensures b <==> exists row :: row in t.Values && row.id.userId == userId && row.connectStatus == CONNECTED
  {
    ConnectedRows(t, userId) != {}
  }

  /** What a query declared to return one entity yields: null for no row, the row for
    * one, and Spring's `IncorrectResultSizeDataAccessException` for more. */
  datatype SingleResult = NoRow | OneRow(row: TokenRow) | NonUnique

  ghost function Single(rows: set<TokenRow>): (r: SingleResult)
    ensures r == NoRow <==> rows == {}
    ensures r.OneRow? ==> rows == {r.row}
    ensures r == NonUnique <==> exists a, b :: a in rows && b in rows && a != b
  {
    if rows == {} then NoRow
    else
      var x :| x in rows;
      if rows == {x} then OneRow(x)
      else
        OtherElement(rows, x);
        NonUnique
  }

  lemma OtherElement<T>(s: set<T>, x: T)
    requires x in s && s != {x}
    ensures exists y :: y in s && y != x
  {
    assert s - {x} != {};
  }

  /** `SELECT u ... WHERE u.id.userId = :userId AND u.connectStatus = 'CONNECTED'`,
    * declared to return a single entity. */
  ghost function FindConnectedByUserId(t: Rows, userId: string): (r: SingleResult)
    ensures r.OneRow? ==> r.row in t.Values && r.row.id.userId == userId && r.row.connectStatus == CONNECTED
    ensures r == NoRow <==> !HasConnectedAccount(t, userId)
  {
    Single(ConnectedRows(t, userId))
  }

  /** `SELECT u ... WHERE u.id.garminUserId = :garminUserId`, declared to return a single
    * entity although the unique key does not make the Garmin id unique on its own. */
  ghost function FindUserByGarminUserId(t: Rows, garminUserId: string): (r: SingleResult)
    ensures r.OneRow? ==> r.row in t.Values && r.row.id.garminUserId == garminUserId
    ensures r == NoRow <==> forall row :: row in t.Values ==> row.id.garminUserId != garminUserId
  {
    var rows := set row | row in t.Values && row.id.garminUserId == garminUserId;
    assert rows == {} <==> forall row :: row in t.Values ==> row.id.garminUserId != garminUserId by {
      if rows == {} {
        forall row | row in t.Values ensures row.id.garminUserId != garminUserId {
          assert row !in rows;
        }
      }
    }
    Single(rows)
  }

  /** The presumption behind the single-result signature of `findConnectedByUserId`:
    * no local user has two CONNECTED rows. */
  ghost predicate AtMostOneConnectedPerUser(t: Rows) {
    forall k1, k2 ::
      (k1 in t && k2 in t && k1.userId == k2.userId
       && t[k1].connectStatus == CONNECTED && t[k2].connectStatus == CONNECTED) ==> k1 == k2
  }

  /** Under that presumption the single-result query never fails, and it finds a row
    * exactly when `hasConnectedAccount` holds. */
  lemma FindConnectedAgreesWithHasConnected(t: Rows, userId: string)
    requires WellKeyed(t) && AtMostOneConnectedPerUser(t)
    ensures FindConnectedByUserId(t, userId) != NonUnique
    ensures HasConnectedAccount(t, userId) <==> FindConnectedByUserId(t, userId).OneRow?
  {
    var rows := ConnectedRows(t, userId);
    forall a, b | a in rows && b in rows
      ensures a == b
    {
      assert t[a.id] == a && t[b.id] == b;
    }
  }

  /** Two local users linked to the same Garmin account make `findUserByGarminUserId`
    * fail: the table's unique key allows it. */
  lemma FindUserByGarminUserIdCanBeNonUnique(a: TokenRow, b: TokenRow)
    requires a.id.garminUserId == b.id.garminUserId && a.id.userId != b.id.userId
    ensures FindUserByGarminUserId(map[a.id := a, b.id := b], a.id.garminUserId) == NonUnique
  {
    var t := map[a.id := a, b.id := b];
    assert t[a.id] == a && t[b.id] == b;
    var rows := set row | row in t.Values && row.id.garminUserId == a.id.garminUserId;
    assert a in rows && b in rows && a != b;
  }

  /** The table behind the repository. */
  class TokensTable {
    var rows: Rows

    ghost predicate Valid()
      reads this
    {
      WellKeyed(rows)
    }

    constructor ()
      ensures Valid() && rows == map[]
    {
      rows := map[];
    }

    /** `save`: inserts the entity's row, or overwrites the row with the same id. The
      * table's NOT NULL columns and primary key demand a persistable entity. */
    method Save(entity: GarminUserTokens) returns (saved: TokenRow)
      requires Valid() && entity.Persistable()
      modifies this
      ensures Valid()
      ensures saved == entity.Row() && rows == old(rows)[saved.id := saved]
    {
      saved := entity.Row();
      rows := rows[saved.id := saved];
    }
  }
}
