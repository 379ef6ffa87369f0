/**
 * Password-reset issuance (src/send-reset-pwd.js) as values: the
 * conditions, the three-field patch and the outcome of one call, with the
 * properties of an issuance proved about them.
 */
module SendResetPwd {
  import opened Records
  import opened Helpers
  import opened Store

  /** The only fields an issuance writes. */
  const ResetFields: set<Key> := {ResetExpires, ResetToken, ResetShortToken}

  /** The conditions getUserData checks: `isVerified` unless the check is skipped. */
  function ResetConditions(skipIsVerifiedCheck: bool): (conds: seq<Condition>)
    ensures CheckIsVerified in conds <==> !skipIsVerifiedCheck
    ensures forall i :: 0 <= i < |conds| ==> conds[i] == CheckIsVerified
  {
    if skipIsVerifiedCheck then [] else [CheckIsVerified]
  }

  /** The new reset fields for record `id`, from the freshly generated tokens. */
  function ResetPatch(id: Id, resetDelay: int, now: int, longToken: string, shortToken: string)
    : (p: Record)
    ensures p.Keys == ResetFields
    ensures p[ResetExpires] == Num(now + resetDelay)
    ensures p[ResetToken] == Str(ConcatIdAndHash(id, longToken))
    ensures p[ResetShortToken] == Str(shortToken)
  {
    map[
      ResetExpires := Num(now + resetDelay),
      ResetToken := Str(ConcatIdAndHash(id, longToken)),
      ResetShortToken := Str(shortToken)]
  }

  /**
   * sendResetPwd(identifyUser): check the identify query, look up one
   * record, check it is verified unless configured not to, give the
   * notifier the record with its new reset values, then patch those values.
   * `longToken` and `shortToken` are what the token generators returned.
   */
  function ResetOutcome(records: map<Id, Record>, idField: Key, opts: Options,
                        identifyUser: Record, now: int, longToken: string, shortToken: string)
    : (o: Outcome)
    ensures o.effects == [] <==> !IdentifyQueryValid(identifyUser, opts.identifyUserProps)
    ensures o.effects == [] ==> o.result == Err(BadQuery) && o.records == records
    ensures o.effects != [] ==> o.effects[0] == Found(identifyUser)
    ensures o.records.Keys == records.Keys
  {
    if !IdentifyQueryValid(identifyUser, opts.identifyUserProps) then
      Outcome(Err(BadQuery), records, [])
    else
      var found := Matching(records, identifyUser);
      match GetUserData(found, records, ResetConditions(opts.skipIsVerifiedCheck), now)
      case Err(e) => Outcome(Err(e), records, [Found(identifyUser)])
      case Ok(id) =>
        var p := ResetPatch(id, opts.resetDelay, now, longToken, shortToken);
        var user2 := records[id] + p;
        var user3 := ApplyPatch(records[id], p, idField);
        Outcome(Ok(Sanitize(user3, opts.passwordField)), records[id := user3],
                [Found(identifyUser), Notified(NotifySendResetPwd, user2), Patched(id, p)])
  }

  /** ResetOutcome once getUserData has accepted record `id`. */
  lemma ResetOutcomeWhenAccepted(records: map<Id, Record>, idField: Key, opts: Options,
                                 identifyUser: Record, now: int, longToken: string,
                                 shortToken: string, id: Id)
    requires IdentifyQueryValid(identifyUser, opts.identifyUserProps)
    requires GetUserData(Matching(records, identifyUser), records,
                         ResetConditions(opts.skipIsVerifiedCheck), now) == Ok(id)
    ensures var p := ResetPatch(id, opts.resetDelay, now, longToken, shortToken);
            var o := ResetOutcome(records, idField, opts, identifyUser, now, longToken, shortToken);
            && o.result == Ok(Sanitize(ApplyPatch(records[id], p, idField), opts.passwordField))
            && o.records == records[id := ApplyPatch(records[id], p, idField)]
            && o.effects == [Found(identifyUser), Notified(NotifySendResetPwd, records[id] + p),
                             Patched(id, p)]
  {
  }

  /** Reading the three reset fields back out of the updated record gives the new values again. */
  lemma ResetFieldsReadBack(user1: Record, newValues: Record)
    requires newValues.Keys == ResetFields
    ensures var user2 := user1 + newValues;
            map[ResetExpires := user2[ResetExpires],
                ResetToken := user2[ResetToken],
                ResetShortToken := user2[ResetShortToken]] == newValues
  {
  }

  /** ResetOutcome once getUserData has rejected the lookup. */
  lemma ResetOutcomeWhenRejected(records: map<Id, Record>, idField: Key, opts: Options,
                                 identifyUser: Record, now: int, longToken: string, shortToken: string)
    requires IdentifyQueryValid(identifyUser, opts.identifyUserProps)
    requires GetUserData(Matching(records, identifyUser), records,
                         ResetConditions(opts.skipIsVerifiedCheck), now).Err?
    ensures ResetOutcome(records, idField, opts, identifyUser, now, longToken, shortToken)
            == Outcome(Err(GetUserData(Matching(records, identifyUser), records,
                                       ResetConditions(opts.skipIsVerifiedCheck), now).error),
                       records, [Found(identifyUser)])
  {
  }

  /** The record an issuance may proceed on: verified, unless the check is skipped. */
  predicate Eligible(rec: Record, opts: Options)
  {
    opts.skipIsVerifiedCheck || Truthy(Field(rec, IsVerified))
  }

  /** getUserData accepts the one record found exactly when it is eligible. */
  lemma ResetAcceptsEligible(records: map<Id, Record>, opts: Options, identifyUser: Record,
                             now: int, id: Id)
    requires Matching(records, identifyUser) == {id}
    ensures GetUserData(Matching(records, identifyUser), records,
                        ResetConditions(opts.skipIsVerifiedCheck), now) == Ok(id)
            <==> Eligible(records[id], opts)
  {
    var conds := ResetConditions(opts.skipIsVerifiedCheck);
    GetUserDataOnOneRecord(Matching(records, identifyUser), records, conds, now, id);
    if Eligible(records[id], opts) {
      assert forall i :: 0 <= i < |conds| ==> Holds(conds[i], records[id], now);
    } else {
      assert !Holds(conds[0], records[id], now);
    }
  }

  /**
   * Which calls fail and how: a bad query before any lookup, then anything
   * but exactly one record found, then an unverified record when the check is
   * on. Every failure leaves the store as it was and issues no patch.
   */
  lemma ResetFailures(records: map<Id, Record>, idField: Key, opts: Options,
                      identifyUser: Record, now: int, longToken: string, shortToken: string)
    ensures var o := ResetOutcome(records, idField, opts, identifyUser, now, longToken, shortToken);
            var valid := IdentifyQueryValid(identifyUser, opts.identifyUserProps);
            var found := Matching(records, identifyUser);
            && (o.result == Err(BadQuery) <==> !valid)
            && (o.result == Err(UserNotFound) <==> valid && |found| != 1)
            && (o.result == Err(Unmet(CheckIsVerified)) <==>
                  valid && |found| == 1 && !Eligible(records[TheOnly(found)], opts))
            && (o.result.Ok? <==> valid && |found| == 1 && Eligible(records[TheOnly(found)], opts))
            && (o.result.Err? ==> o.records == records && o.effects == if valid then [Found(identifyUser)] else [])
  {
    var o := ResetOutcome(records, idField, opts, identifyUser, now, longToken, shortToken);
    var found := Matching(records, identifyUser);
    var conds := ResetConditions(opts.skipIsVerifiedCheck);
    if IdentifyQueryValid(identifyUser, opts.identifyUserProps) && |found| == 1 {
      var id := TheOnly(found);
      var got := GetUserData(found, records, conds, now);
      if Eligible(records[id], opts) {
        assert forall i :: 0 <= i < |conds| ==> Holds(conds[i], records[id], now);
        assert got == Ok(id);
      } else {
        assert conds == [CheckIsVerified];
        assert got == Err(Unmet(CheckIsVerified));
      }
    }
  }

  /**
   * `user` is `rec` with new reset values: `resetExpires` is `now + resetDelay`,
   * `resetToken` binds the record id to the long token, `resetShortToken` is the
   * short token, and every other field (verify fields, `isVerified`, the
   * password) keeps its value.
   */
  ghost predicate ResetIssued(user: Record, rec: Record, id: Id, resetDelay: int, now: int,
                        longToken: string, shortToken: string)
  {
    && Field(user, ResetExpires) == Num(now + resetDelay)
    && Field(user, ResetToken) == Str(ConcatIdAndHash(id, longToken))
    && Field(user, ResetShortToken) == Str(shortToken)
    && forall k :: k !in ResetFields ==> Field(user, k) == Field(rec, k)
  }

  /**
   * The reset patch, applied by the store, writes exactly the three reset
   * fields; the record handed to the notifier (the fetched record with the
   * new values assigned) is the record the store ends up with.
   */
  lemma IssuedRecord(rec: Record, idField: Key, id: Id, resetDelay: int, now: int,
                     longToken: string, shortToken: string)
    requires idField !in ResetFields
    ensures var p := ResetPatch(id, resetDelay, now, longToken, shortToken);
            && ApplyPatch(rec, p, idField) == rec + p
            && ResetIssued(rec + p, rec, id, resetDelay, now, longToken, shortToken)
  {
    var p := ResetPatch(id, resetDelay, now, longToken, shortToken);
    assert p - {idField} == p;
  }

  /** ResetOutcome once getUserData has accepted record `id`, in terms of the record the notifier gets. */
  lemma ResetOutcomeIssues(records: map<Id, Record>, idField: Key, opts: Options,
                           identifyUser: Record, now: int, longToken: string,
                           shortToken: string, id: Id)
    requires idField !in ResetFields
    requires IdentifyQueryValid(identifyUser, opts.identifyUserProps)
    requires GetUserData(Matching(records, identifyUser), records,
                         ResetConditions(opts.skipIsVerifiedCheck), now) == Ok(id)
    ensures var p := ResetPatch(id, opts.resetDelay, now, longToken, shortToken);
            ResetOutcome(records, idField, opts, identifyUser, now, longToken, shortToken)
            == Outcome(Ok(Sanitize(records[id] + p, opts.passwordField)), records[id := records[id] + p],
                       [Found(identifyUser), Notified(NotifySendResetPwd, records[id] + p), Patched(id, p)])
  {
    ResetOutcomeWhenAccepted(records, idField, opts, identifyUser, now, longToken, shortToken, id);
    IssuedRecord(records[id], idField, id, opts.resetDelay, now, longToken, shortToken);
  }

  /**
   * A successful issuance writes exactly the three reset fields of the one
   * record found and no other record; the notifier is called first, with
   * the record as it is after the patch, and the caller gets that record
   * sanitized.
   */
  lemma ResetIssuesTokens(records: map<Id, Record>, idField: Key, opts: Options,
                          identifyUser: Record, now: int, longToken: string, shortToken: string,
                          id: Id)
    requires idField !in ResetFields
    requires IdentifyQueryValid(identifyUser, opts.identifyUserProps)
    requires Matching(records, identifyUser) == {id}
    requires Eligible(records[id], opts)
    ensures var p := ResetPatch(id, opts.resetDelay, now, longToken, shortToken);
            var user := records[id] + p;
            && ResetOutcome(records, idField, opts, identifyUser, now, longToken, shortToken)
               == Outcome(Ok(Sanitize(user, opts.passwordField)), records[id := user],
                          [Found(identifyUser), Notified(NotifySendResetPwd, user), Patched(id, p)])
            && ResetIssued(user, records[id], id, opts.resetDelay, now, longToken, shortToken)
  {
    ResetAcceptsEligible(records, opts, identifyUser, now, id);
    ResetOutcomeIssues(records, idField, opts, identifyUser, now, longToken, shortToken, id);
    IssuedRecord(records[id], idField, id, opts.resetDelay, now, longToken, shortToken);
  }

  /**
   * A re-issued reset token differs from the one it replaces whenever the
   * new long token differs from the old one.
   */
  lemma ReissueReplacesResetToken(records: map<Id, Record>, idField: Key, opts: Options,
                                  identifyUser: Record, now: int, longToken: string,
                                  shortToken: string, id: Id, previousLongToken: string)
    requires idField !in ResetFields
    requires IdentifyQueryValid(identifyUser, opts.identifyUserProps)
    requires Matching(records, identifyUser) == {id}
    requires Eligible(records[id], opts)
    requires Field(records[id], ResetToken) == Str(ConcatIdAndHash(id, previousLongToken))
    requires longToken != previousLongToken
    ensures var o := ResetOutcome(records, idField, opts, identifyUser, now, longToken, shortToken);
            Field(o.records[id], ResetToken) != Field(records[id], ResetToken)
  {
    ResetIssuesTokens(records, idField, opts, identifyUser, now, longToken, shortToken, id);
    ConcatDistinctTokens(id, longToken, previousLongToken);
  }
}
