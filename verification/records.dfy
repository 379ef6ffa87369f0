/**
 * Account records as the two workflows see them: plain objects from field
 * names to JSON-like values, read and compared with JavaScript's rules.
 */
module Records {

  /** Record identifiers, as the store's id field holds them. */
  type Id = string

  /** The names of the fields the workflows read or write by name. */
  const WorkflowFieldNames: set<string> := {
    "isVerified", "verifyToken", "verifyShortToken", "verifyExpires", "verifyChanges",
    "resetExpires", "resetToken", "resetShortToken"}

  /** Any other field name (identifying fields, the id and password fields). */
  type FieldName = s: string | s !in WorkflowFieldNames witness "id"

  /**
   * A field name: the fields the workflows read or write by name, and every
   * other field by its name. Every field name has exactly one spelling.
   */
  datatype Key =
    | IsVerified
    | VerifyToken
    | VerifyShortToken
    | VerifyExpires
    | VerifyChanges
    | ResetExpires
    | ResetToken
    | ResetShortToken
    | Other(name: FieldName)

  /** The JavaScript property name of a field. */
  function Name(k: Key): (s: string)
    ensures k.Other? <==> s !in WorkflowFieldNames
  {
    match k
    case IsVerified => "isVerified"
    case VerifyToken => "verifyToken"
    case VerifyShortToken => "verifyShortToken"
    case VerifyExpires => "verifyExpires"
    case VerifyChanges => "verifyChanges"
    case ResetExpires => "resetExpires"
    case ResetToken => "resetToken"
    case ResetShortToken => "resetShortToken"
    case Other(name) => name
  }

  /** Distinct keys are distinct property names: no property can be written two ways. */
  lemma NameInjective(k1: Key, k2: Key)
    requires Name(k1) == Name(k2)
    ensures k1 == k2
  {
  }

  /** A field value. `Undefined` is what reading an absent field gives. */
  datatype Value =
    | Undefined
    | Null
    | Bool(b: bool)
    | Num(n: int)
    | Str(s: string)
    | Obj(fields: map<Key, Value>)

  type Record = map<Key, Value>

  /** `rec[key]`: an absent field reads as undefined. */
  function Field(rec: Record, key: Key): (v: Value)
  {
    if key in rec then rec[key] else Undefined
  }

  /** JavaScript truthiness of a value. */
  predicate Truthy(v: Value)
  {
    match v
    case Undefined => false
    case Null => false
    case Bool(b) => b
    case Num(n) => n != 0
    case Str(s) => s != ""
    case Obj(_) => true
  }

  /**
   * `v > t` for a timestamp `t`: null and booleans compare as 0 and 1,
   * undefined compares false.
   */
  predicate ExpiresAfter(v: Value, t: int)
    ensures v.Null? ==> (ExpiresAfter(v, t) <==> t < 0)
    ensures v.Num? ==> (ExpiresAfter(v, t) <==> v.n > t)
    ensures v.Undefined? ==> !ExpiresAfter(v, t)
  {
    match v
    case Null => 0 > t
    case Bool(b) => (if b then 1 else 0) > t
    case Num(n) => n > t
    case _ => false
  }

  /**
   * Every key of `pattern` is a field of `rec` with exactly the same value
   * (strict equality, no normalisation). An absent field reads as undefined,
   * so it never equals a defined pattern value.
   */
  predicate Matches(rec: Record, pattern: Record)
    ensures pattern == map[] ==> Matches(rec, pattern)
    ensures (forall k :: k in pattern ==> k in rec && rec[k] == pattern[k]) ==> Matches(rec, pattern)
    ensures Matches(rec, pattern) ==>
              forall k :: k in pattern && pattern[k] != Undefined ==> k in rec && rec[k] == pattern[k]
  {
    forall k :: k in pattern ==> Field(rec, k) == pattern[k]
  }

  lemma ExpiresAfterEarlier(v: Value, t: int, t': int)
    requires ExpiresAfter(v, t) && t' <= t
    ensures ExpiresAfter(v, t')
  {
  }

  /** `sanitizeUserForClient(user, passwordField)`: the credential field is stripped. */
  function Sanitize(rec: Record, passwordField: Key): (r: Record)
    ensures passwordField !in r
    ensures r.Keys == rec.Keys - {passwordField}
    ensures forall k :: k in r ==> r[k] == rec[k]
  {
    rec - {passwordField}
  }
}
