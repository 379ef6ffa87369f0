/**
 * What the record store and the notifier do, as values: a lookup returns
 * the ids of the records whose fields equal the query's, a patch merges
 * fields into one record, and every call to the store or the notifier is
 * an effect in the order the workflow issues it.
 */
module Store {
  import opened Records
  import opened Helpers

  /** Which workflow a notification comes from. */
  datatype Action = NotifySendResetPwd | NotifyVerifySignup

  /** One call out of a workflow, to the store or to the notifier. */
  datatype Event =
    | Found(query: Record)
    | Patched(id: Id, fields: Record)
    | Notified(action: Action, rec: Record)

  /** What one workflow call returns, the records afterwards and the calls it made, in order. */
  datatype Outcome = Outcome(result: Result<Record>, records: map<Id, Record>, effects: seq<Event>)

  /** `find({ query })`: the ids of the records whose fields equal every query value. */
  function Matching(records: map<Id, Record>, query: Record): (found: set<Id>)
    ensures found <= records.Keys
  {
    set id | id in records && Matches(records[id], query)
  }

  /**
   * A lookup finds nothing after the one record it found has been changed
   * so that it no longer matches, when every other record is as it was.
   */
  lemma NothingMatchesAfterUpdate(records: map<Id, Record>, after: map<Id, Record>,
                                  query: Record, id: Id)
    requires Matching(records, query) == {id}
    requires after.Keys == records.Keys
    requires forall x :: x in records && x !in Matching(records, query) ==> after[x] == records[x]
    requires !Matches(after[id], query)
    ensures Matching(after, query) == {}
  {
    forall x | x in after
      ensures !Matches(after[x], query)
    {
      if x != id {
        assert x !in Matching(records, query);
      }
    }
  }

  /**
   * `patch(id, fields)` on one record: the fields are merged in, except the
   * id field, which a patch never rewrites.
   */
  function ApplyPatch(rec: Record, fields: Record, idField: Key): (r: Record)
    ensures r.Keys == rec.Keys + (fields.Keys - {idField})
    ensures forall k :: k in fields && k != idField ==> r[k] == fields[k]
    ensures forall k :: k in rec && (k !in fields || k == idField) ==> r[k] == rec[k]
  {
    rec + (fields - {idField})
  }

  /** Replacing one record of `found` keeps every record outside `found`. */
  lemma OthersKept(records: map<Id, Record>, id: Id, rec: Record, found: set<Id>)
    requires id in found
    ensures forall x :: x in records && x !in found ==> records[id := rec][x] == records[x]
  {
  }

  /** At most one of the effects is a patch. */
  predicate AtMostOnePatch(effects: seq<Event>)
  {
    forall i, j :: 0 <= i < j < |effects| && effects[i].Patched? ==> !effects[j].Patched?
  }

  /** Every patch among the effects is addressed to a record in `ids`. */
  predicate PatchesOnly(effects: seq<Event>, ids: set<Id>)
  {
    forall i :: 0 <= i < |effects| && effects[i].Patched? ==> effects[i].id in ids
  }

  /** A lookup alone patches nothing. */
  lemma LookupOnlyEffects(query: Record, ids: set<Id>)
    ensures AtMostOnePatch([Found(query)]) && PatchesOnly([Found(query)], ids)
  {
  }

  /** A lookup followed by one patch to a record in `ids`. */
  lemma LookupPatchEffects(query: Record, id: Id, fields: Record, ids: set<Id>)
    requires id in ids
    ensures var e := [Found(query), Patched(id, fields)];
            AtMostOnePatch(e) && PatchesOnly(e, ids)
  {
  }

  /** A lookup, one patch to a record in `ids`, then a notification. */
  lemma LookupPatchNotifyEffects(query: Record, id: Id, fields: Record, action: Action,
                                 rec: Record, ids: set<Id>)
    requires id in ids
    ensures var e := [Found(query), Patched(id, fields), Notified(action, rec)];
            AtMostOnePatch(e) && PatchesOnly(e, ids)
  {
  }

  /** A trace extended by two calls, one at a time. */
  lemma TwoCalls(t: seq<Event>, a: Event, b: Event)
    ensures t + [a] + [b] == t + [a, b]
  {
  }

  /** A trace extended by three calls, one at a time. */
  lemma ThreeCalls(t: seq<Event>, a: Event, b: Event, c: Event)
    ensures t + [a] + [b] + [c] == t + [a, b, c]
  {
  }
}
