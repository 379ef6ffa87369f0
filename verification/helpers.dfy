/**
 * The helpers the two workflows call but whose code is not part of this
 * model (getUserData, ensureObjPropsValid, concatIDAndHash), defined as
 * the workflows use them, together with the configuration and the error
 * kinds the workflows raise.
 */
module Helpers {
  import opened Records

  /** The deployment options the two workflows read. */
  datatype Options = Options(
    identifyUserProps: set<Key>,
    passwordField: Key,
    resetDelay: int,
    skipIsVerifiedCheck: bool)

  /** The record conditions getUserData can be asked to check. */
  datatype Condition = CheckIsVerified | CheckIsNotVerifiedOrHasVerifyChanges | CheckVerifyNotExpired

  /** Error kinds (the source raises all of them as BadRequest). */
  datatype Error =
    | BadQuery                     // identify query rejected before any lookup
    | UserNotFound                 // zero or several records matched
    | Unmet(condition: Condition)  // the one record fails a required condition
    | InvalidToken                 // presented token differs from the record's

  datatype Result<T> = Ok(value: T) | Err(error: Error)

  datatype Option<T> = None | Some(value: T)

  predicate IsScalar(v: Value)
  {
    v.Null? || v.Bool? || v.Num? || v.Str?
  }

  /**
   * ensureObjPropsValid(identifyUser, identifyUserProps): the query is a
   * non-empty mapping of scalar values over allowed keys only; an empty
   * allow-list admits nothing.
   */
  predicate IdentifyQueryValid(identifyUser: Record, allowed: set<Key>)
    ensures IdentifyQueryValid(identifyUser, allowed) ==> identifyUser != map[] && identifyUser.Keys <= allowed
    ensures allowed == {} ==> !IdentifyQueryValid(identifyUser, allowed)
  {
    && allowed != {}
    && identifyUser != map[]
    && forall k :: k in identifyUser ==> k in allowed && IsScalar(identifyUser[k])
  }

  /** Staged profile changes are present: `Object.keys(verifyChanges || {}).length > 0`. */
  predicate HasStagedChanges(v: Value)
  {
    v.Obj? && v.fields != map[]
  }

  predicate Holds(c: Condition, rec: Record, now: int)
  {
    match c
    case CheckIsVerified => Truthy(Field(rec, IsVerified))
    case CheckIsNotVerifiedOrHasVerifyChanges =>
      !Truthy(Field(rec, IsVerified)) || HasStagedChanges(Field(rec, VerifyChanges))
    case CheckVerifyNotExpired => ExpiresAfter(Field(rec, VerifyExpires), now)
  }

  /** The first condition of `conds`, in order, that `rec` fails. */
  function FirstUnmet(conds: seq<Condition>, rec: Record, now: int): (r: Option<Condition>)
    ensures r.None? <==> forall i :: 0 <= i < |conds| ==> Holds(conds[i], rec, now)
    ensures r.Some? ==> exists i :: 0 <= i < |conds| && conds[i] == r.value
                           && !Holds(conds[i], rec, now)
                           && forall j :: 0 <= j < i ==> Holds(conds[j], rec, now)
    decreases |conds|
  {
    if conds == [] then None
    else if !Holds(conds[0], rec, now) then Some(conds[0])
    else
      var r := FirstUnmet(conds[1..], rec, now);
      assert forall i :: 1 <= i < |conds| ==> conds[i] == conds[1..][i - 1];
      r
  }

  lemma SingletonUnique(s: set<Id>)
    requires |s| == 1
    ensures forall x, y :: x in s && y in s ==> x == y
  {
    var x :| x in s;
    assert s - {x} == {} by {
      assert |s - {x}| == |s| - 1;
    }
  }

  /** The one element of a singleton set. */
  function TheOnly(s: set<Id>): (x: Id)
    requires |s| == 1
    ensures s == {x}
  {
    SingletonUnique(s);
    var x :| x in s;
    x
  }

  /**
   * getUserData(users, conds): exactly one record must have been found,
   * and it must meet every condition in `conds`; otherwise the error names
   * the failure, lookup first and then the first unmet condition.
   */
  function GetUserData(found: set<Id>, records: map<Id, Record>, conds: seq<Condition>, now: int)
    : (r: Result<Id>)
    requires found <= records.Keys
    ensures r == Err(UserNotFound) <==> |found| != 1
    ensures r.Ok? ==> found == {r.value}
                      && forall i :: 0 <= i < |conds| ==> Holds(conds[i], records[r.value], now)
    ensures r.Ok? || r == Err(UserNotFound) || r.error.Unmet?
  {
    if |found| != 1 then Err(UserNotFound)
    else
      var id := TheOnly(found);
      match FirstUnmet(conds, records[id], now)
      case Some(c) => Err(Unmet(c))
      case None => Ok(id)
  }

  /**
   * With one record found, getUserData accepts it exactly when it meets
   * every condition, and otherwise reports the first condition it fails.
   */
  lemma GetUserDataOnOneRecord(found: set<Id>, records: map<Id, Record>, conds: seq<Condition>,
                               now: int, id: Id)
    requires found == {id} && id in records
    ensures var r := GetUserData(found, records, conds, now);
            && (r == Ok(id) <==> forall i :: 0 <= i < |conds| ==> Holds(conds[i], records[id], now))
            && (r.Err? ==> r.error.Unmet? && FirstUnmet(conds, records[id], now) == Some(r.error.condition))
  {
    assert TheOnly(found) == id;
  }

  /**
   * concatIDAndHash(id, token): the record id and the long token joined by
   * a `___` separator, so that both can be read back.
   */
  function ConcatIdAndHash(id: Id, token: string): (t: string)
    ensures |t| == |id| + 3 + |token|
    ensures t[..|id|] == id && t[|id| + 3..] == token
  {
    id + "___" + token
  }

  /** Distinct long tokens for one record give distinct composite tokens. */
  lemma ConcatDistinctTokens(id: Id, t1: string, t2: string)
    requires t1 != t2
    ensures ConcatIdAndHash(id, t1) != ConcatIdAndHash(id, t2)
  {
  }

  /** One long token bound to two distinct records gives distinct composite tokens. */
  lemma ConcatDistinctIds(id1: Id, id2: Id, t: string)
    requires id1 != id2
    ensures ConcatIdAndHash(id1, t) != ConcatIdAndHash(id2, t)
  {
  }
}
