/** `OidcStateRepo`: the `oidc_state` table, its lookup by primary key, `save`, and the
  * bulk purge `deleteOlderThan`. */
module OidcStateRepository {
  import opened Wrappers
  import opened OidcStates

  type StateRows = map<string, StateRow>

  /** At most one row per state string (the map), stored under its own key, with
    * columns that fit. */
  ghost predicate WellFormed(t: StateRows) {
    forall s :: s in t ==> t[s].state == s && FitsColumns(t[s])
  }

  /** `DELETE FROM OidcState WHERE createdAt < :threshold`: what remains. */
  function Purged(t: StateRows, threshold: int): (r: StateRows)
    ensures forall s :: s in r <==> s in t && t[s].createdAt >= threshold
    ensures forall s :: s in r ==> r[s] == t[s]
  {
    map s | s in t && t[s].createdAt >= threshold :: t[s]
  }

  /** The rows a purge removes. */
  function Deleted(t: StateRows, threshold: int): (ks: set<string>)
    ensures forall s :: s in ks <==> s in t && t[s].createdAt < threshold
  {
    set s | s in t && t[s].createdAt < threshold
  }

  /** The purge removes exactly the rows strictly older than the threshold: a row created
    * at the threshold itself survives, with its contents. */
  lemma PurgeRemovesExactlyOlderRows(t: StateRows, threshold: int)
    ensures Purged(t, threshold).Keys == t.Keys - Deleted(t, threshold)
    ensures forall s :: s in Purged(t, threshold) ==> Purged(t, threshold)[s].createdAt >= threshold
  {
  }

  lemma PurgeIdempotent(t: StateRows, threshold: int)
    ensures Purged(Purged(t, threshold), threshold) == Purged(t, threshold)
  {
  }

  /** A later threshold deletes every row an earlier one deletes. */
  lemma PurgeMonotone(t: StateRows, earlier: int, later: int)
    requires earlier <= later
    ensures Deleted(t, earlier) <= Deleted(t, later)
    ensures Purged(t, later).Keys <= Purged(t, earlier).Keys
  {
  }

  /** Purging with the later threshold alone leaves what purging with both leaves. */
  lemma {:induction false} PurgeAbsorbs(t: StateRows, earlier: int, later: int)
    requires earlier <= later
    ensures Purged(Purged(t, earlier), later) == Purged(t, later)
  {
    var a := Purged(Purged(t, earlier), later);
    var b := Purged(t, later);
    assert a.Keys == b.Keys;
  }

  lemma PurgeKeepsWellFormed(t: StateRows, threshold: int)
    requires WellFormed(t)
    ensures WellFormed(Purged(t, threshold))
  {
  }

  class OidcStateTable {
    var rows: StateRows

    ghost predicate Valid()
      reads this
    {
      WellFormed(rows)
    }

    constructor ()
      ensures Valid() && rows == map[]
    {
      rows := map[];
    }

    /** `findById(state)`: the row stored under that key, if any. */
    function FindById(state: string): (r: Option<StateRow>)
      reads this
      requires Valid()
      ensures r.Some? <==> state in rows
      ensures r.Some? ==> r.value.state == state && FitsColumns(r.value)
      ensures r.Some? ==> r.value == rows[state]
    {
      if state in rows then Some(rows[state]) else None
    }

    /** `save`: inserts the entity's row, or replaces the row with the same state. The
      * database rejects a row whose NOT NULL columns are unset or whose verifier is too
      * long; then nothing changes. */
    method Save(entity: OidcState) returns (ok: bool)
      requires Valid()
      modifies this
      ensures Valid()
      ensures ok <==> entity.Persistable()
      ensures ok ==> rows == old(rows)[entity.state.value := entity.Row()]
      ensures !ok ==> rows == old(rows)
      ensures ok ==> FindById(entity.state.value) == Some(entity.Row())
      ensures ok ==> forall s :: s != entity.state.value ==> FindById(s) == old(FindById(s))
    {
      ok := entity.Persistable();
      if ok {
        rows := rows[entity.state.value := entity.Row()];
      }
    }

    /** `deleteOlderThan(threshold)`. */
    method DeleteOlderThan(threshold: int)
      requires Valid()
      modifies this
      ensures Valid()
      ensures rows == Purged(old(rows), threshold)
    {
      rows := map s | s in rows && rows[s].createdAt >= threshold :: rows[s];
    }
  }
}
