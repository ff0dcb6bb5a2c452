/** `GarminUserTokensId`: the embedded primary key `(userId, garminUserId)` of a token row.
  * The Java object is mutable (setters) and compared by value (`equals`/`hashCode`); the
  * table itself is keyed by `TokenKey`, the value of an id whose two columns are set. */
module TokensIds {
  import opened Wrappers
  import JavaLang

  /** The value of a persisted id: both primary-key columns are non-null. */
  datatype TokenKey = TokenKey(userId: string, garminUserId: string)

  class GarminUserTokensId {
    var userId: Option<string>
    var garminUserId: Option<string>

    /** The no-argument constructor JPA uses: both fields null. */
    constructor Empty()
      ensures userId == None && garminUserId == None
    {
      userId := None;
      garminUserId := None;
    }

    /** The two-argument constructor stores its arguments. */
    constructor (userId: Option<string>, garminUserId: Option<string>)
      ensures this.userId == userId && this.garminUserId == garminUserId
    {
      this.userId := userId;
      this.garminUserId := garminUserId;
    }

    method SetUserId(userId: Option<string>)
      modifies this`userId
      ensures this.userId == userId
    {
      this.userId := userId;
    }

    method SetGarminUserId(garminUserId: Option<string>)
      modifies this`garminUserId
      ensures this.garminUserId == garminUserId
    {
      this.garminUserId := garminUserId;
    }

    /** The table key this id denotes, when both columns are set. */
    function Key(): (k: Option<TokenKey>)
      reads this
      ensures k.Some? <==> userId.Some? && garminUserId.Some?
    {
      if userId.Some? && garminUserId.Some? then Some(TokenKey(userId.value, garminUserId.value))
      else None
    }

    /** `equals(o)`: the identity shortcut, then null/other-class rejection, then
      * null-safe comparison of both fields. */
    predicate Equals(o: Operand)
      reads this, o.Reads()
      ensures Equals(o) <==> o.Same? && userId == o.that.userId && garminUserId == o.that.garminUserId
    {
      match o
      case Same(that) =>
        this == that || (userId == that.userId && garminUserId == that.garminUserId)
      case _ => false
    }

    /** `hashCode()` = `Objects.hash(userId, garminUserId)`. */
    function HashCode(): (h: int)
      reads this
      ensures JavaLang.IsInt32(h)
    {
      JavaLang.ObjectsHash([JavaLang.NullableStringHash(userId), JavaLang.NullableStringHash(garminUserId)])
    }
  }

  /** What `equals` may be handed: null, an object of another class, or an id. */
  datatype Operand = Null | OtherClass | Same(that: GarminUserTokensId) {
    function Reads(): set<object> {
      if Same? then {that} else {}
    }
  }

  lemma EqualsReflexive(a: GarminUserTokensId)
    ensures a.Equals(Same(a))
  {
  }

  lemma EqualsSymmetric(a: GarminUserTokensId, b: GarminUserTokensId)
    ensures a.Equals(Same(b)) <==> b.Equals(Same(a))
  {
  }

  lemma EqualsTransitive(a: GarminUserTokensId, b: GarminUserTokensId, c: GarminUserTokensId)
    requires a.Equals(Same(b)) && b.Equals(Same(c))
    ensures a.Equals(Same(c))
  {
  }

  lemma EqualsRejectsNullAndOtherClasses(a: GarminUserTokensId)
    ensures !a.Equals(Null) && !a.Equals(OtherClass)
  {
  }

  /** The `equals`/`hashCode` contract. */
  lemma EqualIdsHashEqually(a: GarminUserTokensId, b: GarminUserTokensId)
    requires a.Equals(Same(b))
    ensures a.HashCode() == b.HashCode()
  {
  }

  /** For ids whose columns are set, `equals` is equality of table keys, which is why the
    * table can be a map keyed by `TokenKey`. */
  lemma EqualsIsKeyEquality(a: GarminUserTokensId, b: GarminUserTokensId)
    requires a.Key().Some? && b.Key().Some?
    ensures a.Equals(Same(b)) <==> a.Key() == b.Key()
  {
  }
}
