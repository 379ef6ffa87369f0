/**
 * Signup verification (src/verify-signup.js) as values: the token match,
 * the patch that burns or commits the verify token, and the outcome of one
 * call, with the token-lifecycle properties proved about them.
 */
module VerifySignup {
  import opened Records
  import opened Helpers
  import opened Store

  /** The fields every verify patch writes, whatever was staged. */
  const VerifyFields: set<Key> :=
    {IsVerified, VerifyToken, VerifyShortToken, VerifyExpires, VerifyChanges}

  /** The conditions the found record must meet before tokens are compared. */
  const SignupConditions: seq<Condition> := [CheckIsNotVerifiedOrHasVerifyChanges, CheckVerifyNotExpired]

  /** The record is awaiting verification and its token has not expired at `now`. */
  predicate Pending(rec: Record, now: int)
  {
    Holds(CheckIsNotVerifiedOrHasVerifyChanges, rec, now) && Holds(CheckVerifyNotExpired, rec, now)
  }

  /** `verifyChanges || {}`: the staged fields of an object value, none otherwise. */
  function StagedChanges(v: Value): (staged: Record)
    ensures staged != map[] <==> HasStagedChanges(v)
    ensures v.Obj? ==> staged == v.fields
  {
    if v.Obj? then v.fields else map[]
  }

  /**
   * eraseVerifyProps' patch: the staged changes, overridden by the new
   * `isVerified`, the three cleared token fields and an emptied
   * `verifyChanges`. No staged entry for one of those five fields survives.
   */
  function ErasePatch(isVerified: Value, staged: Record): (p: Record)
    ensures p.Keys == staged.Keys + VerifyFields
    ensures p[IsVerified] == isVerified
    ensures p[VerifyToken] == Null && p[VerifyShortToken] == Null && p[VerifyExpires] == Null
    ensures p[VerifyChanges] == Obj(map[])
    ensures forall k :: k in staged && k !in VerifyFields ==> p[k] == staged[k]
  {
    staged + map[
      IsVerified := isVerified,
      VerifyToken := Null,
      VerifyShortToken := Null,
      VerifyExpires := Null,
      VerifyChanges := Obj(map[])]
  }

  /**
   * A staged entry under the name of any of the five verify fields never
   * survives: its key gets the value it would get with nothing staged.
   */
  lemma StagedVerifyFieldOverridden(isVerified: Value, staged: Record, k: Key)
    requires k in staged
    requires Name(k) in {"isVerified", "verifyToken", "verifyShortToken", "verifyExpires", "verifyChanges"}
    ensures ErasePatch(isVerified, staged)[k] == ErasePatch(isVerified, map[])[k]
  {
    assert k in VerifyFields;
  }

  /** The patch after a token mismatch: keep `isVerified`, apply nothing staged. */
  function BurnPatch(rec: Record): (p: Record)
  {
    ErasePatch(Field(rec, IsVerified), map[])
  }

  /**
   * The burn patch writes exactly the five verify fields: `isVerified` as
   * it was, the three token fields null, the staged changes emptied.
   */
  lemma BurnPatchContents(rec: Record)
    ensures var p := BurnPatch(rec);
            && p.Keys == VerifyFields
            && p[IsVerified] == Field(rec, IsVerified)
            && p[VerifyToken] == Null && p[VerifyShortToken] == Null && p[VerifyExpires] == Null
            && p[VerifyChanges] == Obj(map[])
  {
  }

  /** The patch after a match: verified iff the token is still unexpired at `commitNow`. */
  function CommitPatch(rec: Record, commitNow: int): (p: Record)
  {
    ErasePatch(Bool(ExpiresAfter(Field(rec, VerifyExpires), commitNow)),
               StagedChanges(Field(rec, VerifyChanges)))
  }

  /**
   * The commit patch writes the staged changes and the five verify fields:
   * `isVerified` is whether the token is unexpired at `commitNow`, the
   * three token fields are null and the staged changes are emptied.
   */
  lemma CommitPatchContents(rec: Record, commitNow: int)
    ensures var p := CommitPatch(rec, commitNow);
            && p.Keys == StagedChanges(Field(rec, VerifyChanges)).Keys + VerifyFields
            && p[IsVerified] == Bool(ExpiresAfter(Field(rec, VerifyExpires), commitNow))
            && p[VerifyToken] == Null && p[VerifyShortToken] == Null && p[VerifyExpires] == Null
            && p[VerifyChanges] == Obj(map[])
  {
  }

  /**
   * Burning, applied by the store: the three token fields become null, the
   * staged changes are emptied, and `isVerified` and every other field keep
   * their values.
   */
  lemma BurnedRecord(rec: Record, idField: Key)
    requires idField !in VerifyFields
    ensures var r := ApplyPatch(rec, BurnPatch(rec), idField);
            && Field(r, VerifyToken) == Null
            && Field(r, VerifyShortToken) == Null
            && Field(r, VerifyExpires) == Null
            && Field(r, VerifyChanges) == Obj(map[])
            && Field(r, IsVerified) == Field(rec, IsVerified)
            && forall k :: k !in VerifyFields ==> Field(r, k) == Field(rec, k)
  {
    var p := BurnPatch(rec);
    var r := ApplyPatch(rec, p, idField);
    forall k | k !in VerifyFields
      ensures Field(r, k) == Field(rec, k)
    {
      assert k !in p;
    }
  }

  /**
   * Committing, applied by the store: every staged change lands except on
   * the five verify fields and the id field; `isVerified` becomes whether
   * the token is unexpired at `commitNow`; the token fields become null and
   * the staged changes are emptied; fields nothing was staged for keep their
   * values.
   */
  lemma CommittedRecord(rec: Record, idField: Key, commitNow: int)
    requires idField !in VerifyFields
    ensures var r := ApplyPatch(rec, CommitPatch(rec, commitNow), idField);
            var staged := StagedChanges(Field(rec, VerifyChanges));
            && Field(r, IsVerified) == Bool(ExpiresAfter(Field(rec, VerifyExpires), commitNow))
            && Field(r, VerifyToken) == Null
            && Field(r, VerifyShortToken) == Null
            && Field(r, VerifyExpires) == Null
            && Field(r, VerifyChanges) == Obj(map[])
            && Field(r, idField) == Field(rec, idField)
            && forall k :: k !in VerifyFields && k != idField ==>
                 Field(r, k) == if k in staged then staged[k] else Field(rec, k)
  {
  }

  /**
   * verifySignup(query, tokens): look up one record, check its conditions
   * at `now`, compare the tokens, then burn or commit with one patch. The
   * clock is read a second time, as `commitNow`, for the new `isVerified`.
   */
  function SignupOutcome(records: map<Id, Record>, idField: Key, opts: Options,
                         query: Record, tokens: Record, now: int, commitNow: int): (o: Outcome)
    ensures |o.effects| >= 1 && o.effects[0] == Found(query)
    ensures o.records.Keys == records.Keys
  {
    var found := Matching(records, query);
    match GetUserData(found, records, SignupConditions, now)
    case Err(e) => Outcome(Err(e), records, [Found(query)])
    case Ok(id) =>
      var user1 := records[id];
      if !Matches(user1, tokens) then
        var burn := BurnPatch(user1);
        Outcome(Err(InvalidToken), records[id := ApplyPatch(user1, burn, idField)],
                [Found(query), Patched(id, burn)])
      else
        var commit := CommitPatch(user1, commitNow);
        var user2 := ApplyPatch(user1, commit, idField);
        Outcome(Ok(Sanitize(user2, opts.passwordField)), records[id := user2],
                [Found(query), Patched(id, commit), Notified(NotifyVerifySignup, user2)])
  }

  /** The lookup query and the token pattern of the long-token entry: one and the same object. */
  function LongTokenQuery(verifyToken: string): (q: Record)
  {
    map[VerifyToken := Str(verifyToken)]
  }

  /** verifySignupWithLongToken. */
  function LongTokenOutcome(records: map<Id, Record>, idField: Key, opts: Options,
                            verifyToken: string, now: int, commitNow: int): (o: Outcome)
    ensures |o.effects| >= 1 && o.effects[0] == Found(map[VerifyToken := Str(verifyToken)])
    ensures o.records.Keys == records.Keys
  {
    SignupOutcome(records, idField, opts, LongTokenQuery(verifyToken), LongTokenQuery(verifyToken),
                  now, commitNow)
  }

  /**
   * verifySignupWithShortToken: the identify query is checked before any
   * lookup, and only `verifyShortToken` is compared.
   */
  function ShortTokenOutcome(records: map<Id, Record>, idField: Key, opts: Options,
                             verifyShortToken: string, identifyUser: Record,
                             now: int, commitNow: int): (o: Outcome)
    ensures o.effects == [] <==> !IdentifyQueryValid(identifyUser, opts.identifyUserProps)
    ensures o.effects == [] ==> o.result == Err(BadQuery) && o.records == records
    ensures o.effects != [] ==> o.effects[0] == Found(identifyUser)
  {
    if !IdentifyQueryValid(identifyUser, opts.identifyUserProps) then
      Outcome(Err(BadQuery), records, [])
    else
      SignupOutcome(records, idField, opts, identifyUser,
                    map[VerifyShortToken := Str(verifyShortToken)], now, commitNow)
  }

  /** SignupOutcome once getUserData has rejected the lookup. */
  lemma SignupOutcomeWhenRejected(records: map<Id, Record>, idField: Key, opts: Options,
                                  query: Record, tokens: Record, now: int, commitNow: int)
    requires GetUserData(Matching(records, query), records, SignupConditions, now).Err?
    ensures SignupOutcome(records, idField, opts, query, tokens, now, commitNow)
            == Outcome(Err(GetUserData(Matching(records, query), records, SignupConditions, now).error),
                       records, [Found(query)])
  {
  }

  /** SignupOutcome once getUserData has accepted record `id`: burn or commit. */
  lemma SignupOutcomeWhenAccepted(records: map<Id, Record>, idField: Key, opts: Options,
                                  query: Record, tokens: Record, now: int, commitNow: int, id: Id)
    requires GetUserData(Matching(records, query), records, SignupConditions, now) == Ok(id)
    ensures var o := SignupOutcome(records, idField, opts, query, tokens, now, commitNow);
            var burned := ApplyPatch(records[id], BurnPatch(records[id]), idField);
            var committed := ApplyPatch(records[id], CommitPatch(records[id], commitNow), idField);
            if Matches(records[id], tokens) then
              o == Outcome(Ok(Sanitize(committed, opts.passwordField)), records[id := committed],
                           [Found(query), Patched(id, CommitPatch(records[id], commitNow)),
                            Notified(NotifyVerifySignup, committed)])
            else
              o == Outcome(Err(InvalidToken), records[id := burned],
                           [Found(query), Patched(id, BurnPatch(records[id]))])
  {
  }

  /** getUserData accepts the one record found exactly when it is pending. */
  lemma SignupAcceptsPending(records: map<Id, Record>, query: Record, now: int, id: Id)
    requires Matching(records, query) == {id}
    ensures var r := GetUserData(Matching(records, query), records, SignupConditions, now);
            && (r == Ok(id) <==> Pending(records[id], now))
            && (r.Err? ==> r.error == Unmet(if !Holds(CheckIsNotVerifiedOrHasVerifyChanges, records[id], now)
                                            then CheckIsNotVerifiedOrHasVerifyChanges
                                            else CheckVerifyNotExpired))
  {
    GetUserDataOnOneRecord(Matching(records, query), records, SignupConditions, now, id);
    assert SignupConditions[0] == CheckIsNotVerifiedOrHasVerifyChanges;
    assert SignupConditions[1] == CheckVerifyNotExpired;
  }

  // ---------------------------------------------------------------------
  // The four cases of one call

  /** Zero or several records found: UserNotFound, nothing patched. */
  lemma SignupLookupFails(records: map<Id, Record>, idField: Key, opts: Options,
                          query: Record, tokens: Record, now: int, commitNow: int)
    requires |Matching(records, query)| != 1
    ensures SignupOutcome(records, idField, opts, query, tokens, now, commitNow)
            == Outcome(Err(UserNotFound), records, [Found(query)])
  {
    SignupOutcomeWhenRejected(records, idField, opts, query, tokens, now, commitNow);
  }

  /**
   * The one record found is already verified without staged changes, or its
   * token has expired: the first unmet condition is reported, nothing patched.
   */
  lemma SignupPreconditionFails(records: map<Id, Record>, idField: Key, opts: Options,
                                query: Record, tokens: Record, now: int, commitNow: int, id: Id)
    requires Matching(records, query) == {id}
    requires !Pending(records[id], now)
    ensures var o := SignupOutcome(records, idField, opts, query, tokens, now, commitNow);
            && o.records == records
            && o.effects == [Found(query)]
            && o.result == Err(Unmet(if !Holds(CheckIsNotVerifiedOrHasVerifyChanges, records[id], now)
                                     then CheckIsNotVerifiedOrHasVerifyChanges
                                     else CheckVerifyNotExpired))
  {
    SignupAcceptsPending(records, query, now, id);
    SignupOutcomeWhenRejected(records, idField, opts, query, tokens, now, commitNow);
  }

  /**
   * A mismatched token is burned: one patch clears the three token fields
   * and the staged changes, `isVerified` and every other field keep their
   * values, no other record changes, and the call fails with InvalidToken.
   */
  lemma SignupMismatchBurns(records: map<Id, Record>, idField: Key, opts: Options,
                            query: Record, tokens: Record, now: int, commitNow: int, id: Id)
    requires idField !in VerifyFields
    requires Matching(records, query) == {id}
    requires Pending(records[id], now)
    requires !Matches(records[id], tokens)
    ensures var o := SignupOutcome(records, idField, opts, query, tokens, now, commitNow);
            && o.result == Err(InvalidToken)
            && o.effects == [Found(query), Patched(id, BurnPatch(records[id]))]
            && o.records == records[id := o.records[id]]
            && Field(o.records[id], VerifyToken) == Null
            && Field(o.records[id], VerifyShortToken) == Null
            && Field(o.records[id], VerifyExpires) == Null
            && Field(o.records[id], VerifyChanges) == Obj(map[])
            && Field(o.records[id], IsVerified) == Field(records[id], IsVerified)
            && forall k :: k !in VerifyFields ==> Field(o.records[id], k) == Field(records[id], k)
  {
    SignupAcceptsPending(records, query, now, id);
    SignupOutcomeWhenAccepted(records, idField, opts, query, tokens, now, commitNow, id);
    BurnedRecord(records[id], idField);
  }

  /**
   * A matching token commits: one patch applies the staged changes, sets
   * `isVerified` to whether the token is unexpired at `commitNow`, clears the
   * token fields and the staged changes; no other record changes; the
   * notifier gets the patched record and the caller its sanitized copy.
   */
  lemma SignupMatchCommits(records: map<Id, Record>, idField: Key, opts: Options,
                           query: Record, tokens: Record, now: int, commitNow: int, id: Id)
    requires idField !in VerifyFields
    requires Matching(records, query) == {id}
    requires Pending(records[id], now)
    requires Matches(records[id], tokens)
    ensures var o := SignupOutcome(records, idField, opts, query, tokens, now, commitNow);
            var staged := StagedChanges(Field(records[id], VerifyChanges));
            && o.result == Ok(Sanitize(o.records[id], opts.passwordField))
            && o.effects == [Found(query), Patched(id, CommitPatch(records[id], commitNow)),
                             Notified(NotifyVerifySignup, o.records[id])]
            && o.records == records[id := o.records[id]]
            && Field(o.records[id], IsVerified)
               == Bool(ExpiresAfter(Field(records[id], VerifyExpires), commitNow))
            && Field(o.records[id], VerifyToken) == Null
            && Field(o.records[id], VerifyShortToken) == Null
            && Field(o.records[id], VerifyExpires) == Null
            && Field(o.records[id], VerifyChanges) == Obj(map[])
            && Field(o.records[id], idField) == Field(records[id], idField)
            && forall k :: k !in VerifyFields && k != idField ==>
                 Field(o.records[id], k) == if k in staged then staged[k] else Field(records[id], k)
  {
    SignupAcceptsPending(records, query, now, id);
    SignupOutcomeWhenAccepted(records, idField, opts, query, tokens, now, commitNow, id);
    CommittedRecord(records[id], idField, commitNow);
  }

  /**
   * When the clock has not moved past the check's reading, a commit always
   * verifies: the recomputed `verifyExpires > now` repeats the expiry check.
   */
  lemma CommitVerifiesWhenClockSteady(records: map<Id, Record>, idField: Key, opts: Options,
                                      query: Record, tokens: Record, now: int, commitNow: int, id: Id)
    requires idField !in VerifyFields
    requires Matching(records, query) == {id}
    requires commitNow <= now
    requires SignupOutcome(records, idField, opts, query, tokens, now, commitNow).result.Ok?
    ensures Field(SignupOutcome(records, idField, opts, query, tokens, now, commitNow).records[id],
                  IsVerified) == Bool(true)
  {
    SignupAcceptsPending(records, query, now, id);
    if !Pending(records[id], now) {
      SignupPreconditionFails(records, idField, opts, query, tokens, now, commitNow, id);
    } else if !Matches(records[id], tokens) {
      SignupMismatchBurns(records, idField, opts, query, tokens, now, commitNow, id);
    } else {
      SignupMatchCommits(records, idField, opts, query, tokens, now, commitNow, id);
      ExpiresAfterEarlier(Field(records[id], VerifyExpires), now, commitNow);
    }
  }

  /** Every call leaves every record other than the one it found as it was. */
  lemma SignupKeepsOtherRecords(records: map<Id, Record>, idField: Key, opts: Options,
                                query: Record, tokens: Record, now: int, commitNow: int)
    ensures var o := SignupOutcome(records, idField, opts, query, tokens, now, commitNow);
            forall id :: id in records && id !in Matching(records, query) ==> o.records[id] == records[id]
  {
    var found := Matching(records, query);
    var got := GetUserData(found, records, SignupConditions, now);
    if got.Err? {
      SignupOutcomeWhenRejected(records, idField, opts, query, tokens, now, commitNow);
    } else {
      var id := got.value;
      var user1 := records[id];
      SignupOutcomeWhenAccepted(records, idField, opts, query, tokens, now, commitNow, id);
      if Matches(user1, tokens) {
        OthersKept(records, id, ApplyPatch(user1, CommitPatch(user1, commitNow), idField), found);
      } else {
        OthersKept(records, id, ApplyPatch(user1, BurnPatch(user1), idField), found);
      }
    }
  }

  /**
   * Every call: the lookup comes first, at most one patch follows and only
   * to the one record found, and only a burn or a commit changes anything.
   */
  lemma SignupTouchesOnlyFoundRecord(records: map<Id, Record>, idField: Key, opts: Options,
                                     query: Record, tokens: Record, now: int, commitNow: int)
    ensures var o := SignupOutcome(records, idField, opts, query, tokens, now, commitNow);
            && AtMostOnePatch(o.effects)
            && PatchesOnly(o.effects, Matching(records, query))
            && (o.records != records ==> o.result.Ok? || o.result == Err(InvalidToken))
  {
    var found := Matching(records, query);
    var got := GetUserData(found, records, SignupConditions, now);
    if got.Err? {
      SignupOutcomeWhenRejected(records, idField, opts, query, tokens, now, commitNow);
      LookupOnlyEffects(query, found);
    } else {
      var id := got.value;
      var user1 := records[id];
      SignupOutcomeWhenAccepted(records, idField, opts, query, tokens, now, commitNow, id);
      if Matches(user1, tokens) {
        var committed := ApplyPatch(user1, CommitPatch(user1, commitNow), idField);
        LookupPatchNotifyEffects(query, id, CommitPatch(user1, commitNow), NotifyVerifySignup,
                                 committed, found);
      } else {
        LookupPatchEffects(query, id, BurnPatch(user1), found);
      }
    }
  }

  /**
   * The short-token entry compares only `verifyShortToken`: it fails with
   * InvalidToken exactly when its identify query is accepted and finds one
   * pending record whose short token differs from the one presented. The
   * identify query's own fields play no part in the comparison.
   */
  lemma ShortTokenInvalidIff(records: map<Id, Record>, idField: Key, opts: Options,
                             verifyShortToken: string, identifyUser: Record,
                             now: int, commitNow: int)
    ensures ShortTokenOutcome(records, idField, opts, verifyShortToken, identifyUser,
                              now, commitNow).result == Err(InvalidToken)
            <==> && IdentifyQueryValid(identifyUser, opts.identifyUserProps)
                 && |Matching(records, identifyUser)| == 1
                 && Pending(records[TheOnly(Matching(records, identifyUser))], now)
                 && Field(records[TheOnly(Matching(records, identifyUser))], VerifyShortToken)
                    != Str(verifyShortToken)
  {
    if IdentifyQueryValid(identifyUser, opts.identifyUserProps) {
      InvalidTokenIffMismatch(records, idField, opts, identifyUser,
                              map[VerifyShortToken := Str(verifyShortToken)], now, commitNow);
    }
  }

  /** The result is InvalidToken exactly when the one pending record found does not match. */
  lemma InvalidTokenIffMismatch(records: map<Id, Record>, idField: Key, opts: Options,
                                query: Record, tokens: Record, now: int, commitNow: int)
    ensures SignupOutcome(records, idField, opts, query, tokens, now, commitNow).result == Err(InvalidToken)
            <==> && |Matching(records, query)| == 1
                 && Pending(records[TheOnly(Matching(records, query))], now)
                 && !Matches(records[TheOnly(Matching(records, query))], tokens)
  {
    var found := Matching(records, query);
    if |found| == 1 {
      var id := TheOnly(found);
      SignupAcceptsPending(records, query, now, id);
      if !Pending(records[id], now) {
        SignupOutcomeWhenRejected(records, idField, opts, query, tokens, now, commitNow);
      } else {
        SignupOutcomeWhenAccepted(records, idField, opts, query, tokens, now, commitNow, id);
      }
    } else {
      SignupLookupFails(records, idField, opts, query, tokens, now, commitNow);
    }
  }

  /**
   * The long-token entry looks records up by the very fields it then
   * compares, so whatever it finds matches: it never burns a token.
   */
  lemma LongTokenNeverMismatches(records: map<Id, Record>, idField: Key, opts: Options,
                                 verifyToken: string, now: int, commitNow: int)
    ensures LongTokenOutcome(records, idField, opts, verifyToken, now, commitNow).result
            != Err(InvalidToken)
  {
    var q := LongTokenQuery(verifyToken);
    InvalidTokenIffMismatch(records, idField, opts, q, q, now, commitNow);
  }

  // ---------------------------------------------------------------------
  // The token lifecycle across calls

  /**
   * A record whose `verifyExpires` has been cleared fails a precondition on
   * every attempt that finds it, at any non-negative time, and is left as it is.
   */
  lemma ClearedRecordRejectsAttempts(records: map<Id, Record>, idField: Key, opts: Options,
                                     query: Record, tokens: Record, now: int, commitNow: int, id: Id)
    requires Matching(records, query) == {id}
    requires Field(records[id], VerifyExpires) == Null
    requires now >= 0
    ensures var o := SignupOutcome(records, idField, opts, query, tokens, now, commitNow);
            && o.result.Err? && o.result.error.Unmet?
            && o.records == records && o.effects == [Found(query)]
  {
    SignupPreconditionFails(records, idField, opts, query, tokens, now, commitNow, id);
  }

  /**
   * A call that burns or redeems a token leaves the one record it found
   * with no verify token and no expiry.
   */
  lemma CallSpendsToken(records: map<Id, Record>, idField: Key, opts: Options,
                        query: Record, tokens: Record, now: int, commitNow: int)
    requires idField !in VerifyFields
    requires var o := SignupOutcome(records, idField, opts, query, tokens, now, commitNow);
             o.result.Ok? || o.result == Err(InvalidToken)
    ensures |Matching(records, query)| == 1
    ensures var after := SignupOutcome(records, idField, opts, query, tokens, now, commitNow).records;
            var id := TheOnly(Matching(records, query));
            && id in after
            && Field(after[id], VerifyToken) == Null
            && Field(after[id], VerifyExpires) == Null
  {
    var got := GetUserData(Matching(records, query), records, SignupConditions, now);
    if got.Err? {
      SignupOutcomeWhenRejected(records, idField, opts, query, tokens, now, commitNow);
      assert false;
    }
    var id := got.value;
    assert TheOnly(Matching(records, query)) == id;
    SignupOutcomeWhenAccepted(records, idField, opts, query, tokens, now, commitNow, id);
    if Matches(records[id], tokens) {
      CommittedRecord(records[id], idField, commitNow);
    } else {
      BurnedRecord(records[id], idField);
    }
  }

  /**
   * Once a call has burned or redeemed a record's token, the token is spent:
   * no long token finds the record any more.
   */
  lemma SpentTokenNotFound(records: map<Id, Record>, idField: Key, opts: Options,
                           query: Record, tokens: Record, now: int, commitNow: int,
                           verifyToken: string)
    requires idField !in VerifyFields
    requires var o := SignupOutcome(records, idField, opts, query, tokens, now, commitNow);
             o.result.Ok? || o.result == Err(InvalidToken)
    ensures |Matching(records, query)| == 1
    ensures var after := SignupOutcome(records, idField, opts, query, tokens, now, commitNow).records;
            TheOnly(Matching(records, query)) !in Matching(after, LongTokenQuery(verifyToken))
  {
    CallSpendsToken(records, idField, opts, query, tokens, now, commitNow);
  }

  /**
   * Once a call has burned or redeemed a record's token, a later
   * short-token attempt that finds the record fails a precondition without
   * touching the store, so it can neither succeed nor burn again.
   */
  lemma SpentTokenCannotBeReplayed(records: map<Id, Record>, idField: Key, opts: Options,
                                   query: Record, tokens: Record, now: int, commitNow: int,
                                   verifyShortToken: string, identifyUser: Record,
                                   later: int, laterCommit: int)
    requires idField !in VerifyFields
    requires var o := SignupOutcome(records, idField, opts, query, tokens, now, commitNow);
             o.result.Ok? || o.result == Err(InvalidToken)
    requires later >= 0
    ensures |Matching(records, query)| == 1
    ensures var after := SignupOutcome(records, idField, opts, query, tokens, now, commitNow).records;
            var id := TheOnly(Matching(records, query));
            Matching(after, identifyUser) == {id} ==>
              var o2 := ShortTokenOutcome(after, idField, opts, verifyShortToken, identifyUser,
                                          later, laterCommit);
              o2.result.Err? && o2.result.error != InvalidToken && o2.records == after
  {
    CallSpendsToken(records, idField, opts, query, tokens, now, commitNow);
    var after := SignupOutcome(records, idField, opts, query, tokens, now, commitNow).records;
    var id := TheOnly(Matching(records, query));
    if Matching(after, identifyUser) == {id} && IdentifyQueryValid(identifyUser, opts.identifyUserProps) {
      ClearedRecordRejectsAttempts(after, idField, opts, identifyUser,
                                   map[VerifyShortToken := Str(verifyShortToken)], later, laterCommit, id);
    }
  }

  /** After a redemption no record holds the redeemed long token any more. */
  lemma RedeemedTokenHeldByNone(records: map<Id, Record>, idField: Key, opts: Options,
                                verifyToken: string, now: int, commitNow: int)
    requires idField !in VerifyFields
    requires LongTokenOutcome(records, idField, opts, verifyToken, now, commitNow).result.Ok?
    ensures var after := LongTokenOutcome(records, idField, opts, verifyToken, now, commitNow).records;
            Matching(after, LongTokenQuery(verifyToken)) == {}
  {
    var q := LongTokenQuery(verifyToken);
    TokenQueryFindsNoneAfterCall(records, idField, opts, q, q, now, commitNow);
  }

  /**
   * A lookup query that pins `verifyToken` to a string matches no record
   * once a call through it has committed or burned: the one record it found
   * now holds null there, and no other record changed.
   */
  lemma TokenQueryFindsNoneAfterCall(records: map<Id, Record>, idField: Key, opts: Options,
                                     query: Record, tokens: Record, now: int, commitNow: int)
    requires idField !in VerifyFields
    requires VerifyToken in query && query[VerifyToken].Str?
    requires var o := SignupOutcome(records, idField, opts, query, tokens, now, commitNow);
             o.result.Ok? || o.result == Err(InvalidToken)
    ensures Matching(SignupOutcome(records, idField, opts, query, tokens, now, commitNow).records, query) == {}
  {
    var after := SignupOutcome(records, idField, opts, query, tokens, now, commitNow).records;
    CallSpendsToken(records, idField, opts, query, tokens, now, commitNow);
    SignupKeepsOtherRecords(records, idField, opts, query, tokens, now, commitNow);
    var id := TheOnly(Matching(records, query));
    NothingMatchesAfterUpdate(records, after, query, id);
  }

  /**
   * Presenting a long token again after it has been redeemed finds no
   * record at all, whatever the time: the call fails with UserNotFound and
   * changes nothing.
   */
  lemma RedeemedLongTokenFindsNothing(records: map<Id, Record>, idField: Key, opts: Options,
                                      verifyToken: string, now: int, commitNow: int,
                                      later: int, laterCommit: int)
    requires idField !in VerifyFields
    requires LongTokenOutcome(records, idField, opts, verifyToken, now, commitNow).result.Ok?
    ensures var after := LongTokenOutcome(records, idField, opts, verifyToken, now, commitNow).records;
            LongTokenOutcome(after, idField, opts, verifyToken, later, laterCommit)
            == Outcome(Err(UserNotFound), after, [Found(LongTokenQuery(verifyToken))])
  {
    var q := LongTokenQuery(verifyToken);
    var after := LongTokenOutcome(records, idField, opts, verifyToken, now, commitNow).records;
    RedeemedTokenHeldByNone(records, idField, opts, verifyToken, now, commitNow);
    SignupLookupFails(after, idField, opts, q, q, later, laterCommit);
  }
}
