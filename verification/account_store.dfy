/**
 * The record store the workflows run against, with the two workflows as
 * step-by-step methods on it. Each workflow method is proved to do exactly
 * what the outcome function of its module describes.
 */
module AccountStore {
  import opened Records
  import opened Helpers
  import opened Store
  import opened VerifySignup
  import opened SendResetPwd

  class RecordStore {
    /** The name of the field that holds a record's id (the service's `id`). */
    const idField: Key
    /** The stored records, by id. */
    var records: map<Id, Record>
    /** Every call made to the store and to the notifier, in order. */
    var trace: seq<Event>

    /** Every record holds its own id in the id field. */
    ghost predicate Valid()
      reads this
    {
      && idField.Other?
      && forall id :: id in records ==> Field(records[id], idField) == Str(id)
    }

    constructor (idField: Key, records: map<Id, Record>)
      requires idField.Other?
      requires forall id :: id in records ==> Field(records[id], idField) == Str(id)
      ensures Valid()
      ensures this.idField == idField && this.records == records && trace == []
    {
      this.idField := idField;
      this.records := records;
      trace := [];
    }

    /** `find({ query })`: the ids of the matching records; nothing changes. */
    method Find(query: Record) returns (found: set<Id>)
      modifies this
      ensures found == Matching(records, query)
      ensures records == old(records) && trace == old(trace) + [Found(query)]
    {
      found := Matching(records, query);
      trace := trace + [Found(query)];
    }

    /** `patch(id, fields)`: merges `fields` into record `id` and returns the result. */
    method Patch(id: Id, fields: Record) returns (patched: Record)
      requires Valid() && id in records
      modifies this
      ensures Valid()
      ensures records == old(records)[id := ApplyPatch(old(records)[id], fields, idField)]
      ensures patched == records[id]
      ensures trace == old(trace) + [Patched(id, fields)]
    {
      patched := ApplyPatch(records[id], fields, idField);
      records := records[id := patched];
      trace := trace + [Patched(id, fields)];
    }

    /** `notifier(options, action, user)`: the notification is sent and the record echoed back. */
    method Notify(action: Action, rec: Record) returns (echo: Record)
      modifies this
      ensures echo == rec
      ensures records == old(records) && trace == old(trace) + [Notified(action, rec)]
    {
      echo := rec;
      trace := trace + [Notified(action, rec)];
    }

    /** `user[usersServiceIdName]` of a stored record. */
    function IdOf(found: Id): (id: Id)
      reads this
      requires Valid() && found in records
      ensures id == found
    {
      Field(records[found], idField).s
    }

    /** verifySignup: lookup, conditions, token match, then one burn or commit patch. */
    method VerifySignup(opts: Options, query: Record, tokens: Record, now: int, commitNow: int)
      returns (r: Result<Record>)
      requires Valid()
      modifies this
      ensures Valid()
      ensures var o := SignupOutcome(old(records), idField, opts, query, tokens, now, commitNow);
              r == o.result && records == o.records && trace == old(trace) + o.effects
    {
      var users := Find(query);
      var got := GetUserData(users, records, SignupConditions, now);
      if got.Err? {
        SignupOutcomeWhenRejected(records, idField, opts, query, tokens, now, commitNow);
        return Err(got.error);
      }
      SignupOutcomeWhenAccepted(records, idField, opts, query, tokens, now, commitNow, got.value);
      var user1 := records[got.value];
      var id := IdOf(got.value);
      if !Matches(user1, tokens) {
        var burned := Patch(id, BurnPatch(user1));
        TwoCalls(old(trace), Found(query), Patched(id, BurnPatch(user1)));
        return Err(InvalidToken);
      }
      var user2 := Patch(id, CommitPatch(user1, commitNow));
      var user3 := Notify(NotifyVerifySignup, user2);
      ThreeCalls(old(trace), Found(query), Patched(id, CommitPatch(user1, commitNow)),
                 Notified(NotifyVerifySignup, user2));
      r := Ok(Sanitize(user3, opts.passwordField));
    }

    /** verifySignupWithLongToken: `{verifyToken}` is both the query and the tokens to match. */
    method VerifySignupLong(opts: Options, verifyToken: string, now: int, commitNow: int)
      returns (r: Result<Record>)
      requires Valid()
      modifies this
      ensures Valid()
      ensures var o := LongTokenOutcome(old(records), idField, opts, verifyToken, now, commitNow);
              r == o.result && records == o.records && trace == old(trace) + o.effects
      ensures r != Err(InvalidToken)
    {
      LongTokenNeverMismatches(records, idField, opts, verifyToken, now, commitNow);
      var q := map[VerifyToken := Str(verifyToken)];
      r := VerifySignup(opts, q, q, now, commitNow);
    }

    /** verifySignupWithShortToken: the identify query is checked before the store is queried. */
    method VerifySignupShort(opts: Options, verifyShortToken: string, identifyUser: Record,
                             now: int, commitNow: int)
      returns (r: Result<Record>)
      requires Valid()
      modifies this
      ensures Valid()
      ensures var o := ShortTokenOutcome(old(records), idField, opts, verifyShortToken, identifyUser,
                                         now, commitNow);
              r == o.result && records == o.records && trace == old(trace) + o.effects
    {
      if !IdentifyQueryValid(identifyUser, opts.identifyUserProps) {
        return Err(BadQuery);
      }
      r := VerifySignup(opts, identifyUser, map[VerifyShortToken := Str(verifyShortToken)],
                        now, commitNow);
    }

    /**
     * sendResetPwd: query guard, lookup, verified check, new reset values set
     * on the fetched record, notifier, then a patch of those three values.
     */
    method SendResetPwd(opts: Options, identifyUser: Record, now: int,
                        longToken: string, shortToken: string)
      returns (r: Result<Record>)
      requires Valid()
      modifies this
      ensures Valid()
      ensures var o := ResetOutcome(old(records), idField, opts, identifyUser, now,
                                    longToken, shortToken);
              r == o.result && records == o.records && trace == old(trace) + o.effects
    {
      if !IdentifyQueryValid(identifyUser, opts.identifyUserProps) {
        return Err(BadQuery);
      }
      var users := Find(identifyUser);
      var got := GetUserData(users, records, ResetConditions(opts.skipIsVerifiedCheck), now);
      if got.Err? {
        ResetOutcomeWhenRejected(records, idField, opts, identifyUser, now, longToken, shortToken);
        return Err(got.error);
      }
      ResetOutcomeWhenAccepted(records, idField, opts, identifyUser, now, longToken, shortToken,
                               got.value);
      var user1 := records[got.value];
      var id := IdOf(got.value);
      var newValues := ResetPatch(id, opts.resetDelay, now, longToken, shortToken);
      var user2 := user1 + newValues;
      var ignored := Notify(NotifySendResetPwd, user2);
      ResetFieldsReadBack(user1, newValues);
      var user3 := Patch(id, map[
        ResetExpires := user2[ResetExpires],
        ResetToken := user2[ResetToken],
        ResetShortToken := user2[ResetShortToken]]);
      ThreeCalls(old(trace), Found(identifyUser), Notified(NotifySendResetPwd, user2),
                 Patched(id, newValues));
      r := Ok(Sanitize(user3, opts.passwordField));
    }
  }
}
