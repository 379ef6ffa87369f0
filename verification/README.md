# Verified model of signup verification and password-reset issuance

This project models the account-token workflows of `authentication-local-management`, a
Feathers plugin for local-account management:

- **verifySignup**: a user presents the long verify token from a link, or the short verify
  token together with identifying fields. The workflow looks up exactly one account and
  checks that the account is still awaiting verification and its token has not expired. It
  then compares the presented token fields with the account's, by exact equality.
  - On a mismatch, one patch burns the token and the call fails with "Invalid token".
  - On a match, one patch applies the staged profile changes (`verifyChanges`), sets
    `isVerified` to `verifyExpires > now` and clears the token fields. The notifier then
    gets the patched account, and the caller gets it with the password field stripped.
- **sendResetPwd**: a user asks for a password reset by identifying fields. The workflow:
  1. checks the identify query;
  2. looks up exactly one account;
  3. requires it to be verified, unless configured not to;
  4. computes `resetExpires`, `resetToken` and `resetShortToken`;
  5. hands the account with those values to the notifier;
  6. patches exactly those three fields.

The model has three layers:

- **Records** (`records.dfy`): an account is a JavaScript-like object, a map from field names
  to values. Reading an absent field gives `undefined`. Truthiness and the `>` comparison
  follow JavaScript for the values that occur.
- **Outcome functions**: `VerifySignup.SignupOutcome` (with its long-token and short-token
  entry points) and `SendResetPwd.ResetOutcome`. Each says, as values, what one call returns,
  what the store holds afterwards, and which calls it makes to the store and the notifier,
  in order. The lemmas of `verify_signup.dfy` and `send_reset_pwd.dfy` state the workflows'
  properties about these functions.
- **The store** (`account_store.dfy`): the class `AccountStore.RecordStore`.
  - It holds the records by id and a trace of the calls made to it and to the notifier.
  - Its invariant is that the id field is an ordinary field, not one of the workflow fields,
    and that every record holds its own id there.
  - The methods `VerifySignup`, `VerifySignupLong`, `VerifySignupShort` and `SendResetPwd`
    run the workflows step by step, in the source's order. Signup verification finds,
    checks, patches, then notifies; reset issuance finds, checks, notifies, then patches.
  - Each method is proved to return what the outcome function gives and to leave exactly
    the outcome's records and trace.

The helpers the workflows call are not part of this model. They are `getUserData`,
`ensureObjPropsValid`, `concatIDAndHash`, `sanitizeUserForClient`, the notifier and the
store's `find`/`patch`. The model defines them (in `helpers.dfy` and `store.dfy`) the way the
two workflows use them:

- `getUserData` fails with "user not found" unless exactly one record was found, and
  otherwise reports the first unmet condition, in the order given.
- `ensureObjPropsValid` accepts a non-empty query of scalar values over allowed keys only,
  and nothing when the allow-list is empty.
- `concatIDAndHash` joins the id and the token with a `___` separator.
- `sanitizeUserForClient` strips the password field.
- The notifier echoes the record it is given.
- `find` returns the records whose fields equal every query value.
- `patch` merges fields into one record but never rewrites its id field.

Time is a parameter. Verification reads the clock twice: `now` for getUserData's expiry
check (src/verify-signup.js:36) and `commitNow` for the new `isVerified` (line 46). The
freshly generated tokens are parameters too.

## Model

| member | source | states |
|---|---|---|
| Records.Name | src/verify-signup.js:51-57 | a key is an ordinary field exactly when its name is none of the eight workflow field names |
| Records.NameInjective | src/verify-signup.js:51-57 | two keys with the same field name are the same key, so an ordinary field can never alias a workflow field |
| Records.Matches | src/verify-signup.js:38 | the empty pattern matches every record; a record holding every pattern value matches; a matching record holds every defined pattern value, field by field |
| Records.ExpiresAfter | src/verify-signup.js:46 | `verifyExpires > now` as JavaScript evaluates it: a number compares as itself, null as 0, undefined never exceeds |
| Records.Sanitize | src/send-reset-pwd.js:43 | the password field is gone; every other field is kept with its value |
| Helpers.IdentifyQueryValid | src/send-reset-pwd.js:19 | an accepted identify query is non-empty and uses only allowed keys; with no allowed keys, every query is refused |
| Helpers.FirstUnmet | src/verify-signup.js:36 | none exactly when every condition holds; otherwise a failing condition all of whose predecessors hold (the first unmet one) |
| Helpers.GetUserData | src/verify-signup.js:34-36 | "user not found" exactly when the lookup did not find one record; success names the one record found, which meets every condition; every other failure is an unmet condition |
| Helpers.GetUserDataOnOneRecord | src/send-reset-pwd.js:21-23 | with one record found: success exactly when it meets every condition, otherwise the first condition it fails |
| Helpers.ConcatIdAndHash | src/send-reset-pwd.js:27-30 | the composite token starts with the record id and ends with the long token, three separator characters between |
| Helpers.ConcatDistinctTokens | src/send-reset-pwd.js:27-30 | distinct long tokens for one record give distinct reset tokens |
| Helpers.ConcatDistinctIds | src/send-reset-pwd.js:27-30 | one long token bound to distinct records gives distinct reset tokens |
| Store.Matching | src/verify-signup.js:34-35 | the lookup finds only stored records |
| Store.ApplyPatch | src/verify-signup.js:59-60 | the patched record has the old fields plus the patch's; every patched field (but the id field) takes the patch's value, every other field keeps its own |
| VerifySignup.ErasePatch | src/verify-signup.js:51-57 | the patch writes the staged fields and the five verify fields; the fixed values for `isVerified`, the three tokens and `verifyChanges` override any staged entry; other staged values pass through |
| VerifySignup.StagedChanges | src/verify-signup.js:46 | staged changes are present exactly when `verifyChanges` has some; an object's staged changes are its fields |
| VerifySignup.StagedVerifyFieldOverridden | src/verify-signup.js:51-57 | a staged entry under any of the five verify field names gets exactly the value it would get with nothing staged |
| VerifySignup.BurnPatchContents | src/verify-signup.js:39 | the burn patch writes exactly the five verify fields: `isVerified` as it was, null tokens and expiry, empty `verifyChanges` |
| VerifySignup.CommitPatchContents | src/verify-signup.js:46 | the commit patch writes the staged fields and the five verify fields: `isVerified` is `verifyExpires > commitNow`, null tokens and expiry, empty `verifyChanges` |
| VerifySignup.BurnedRecord | src/verify-signup.js:39 | burning nulls the three token fields, empties `verifyChanges`, keeps `isVerified` and every other field |
| VerifySignup.CommittedRecord | src/verify-signup.js:46 | committing sets `isVerified` to `verifyExpires > commitNow`, nulls the tokens, empties `verifyChanges`, applies each staged change except to the verify fields and the id field, keeps the rest |
| VerifySignup.SignupOutcome | src/verify-signup.js:29-62 | every call starts with the lookup and keeps the set of stored ids |
| VerifySignup.LongTokenOutcome | src/verify-signup.js:16-20 | every long-token call starts with the lookup by `{verifyToken}` and keeps the set of stored ids |
| VerifySignup.ShortTokenOutcome | src/verify-signup.js:22-27 | no store call at all exactly when the identify query is invalid, and then a bad-query failure with the store unchanged; otherwise the lookup by `identifyUser` comes first |
| VerifySignup.ShortTokenInvalidIff | src/verify-signup.js:22-27 | the short-token entry fails with "invalid token" exactly when the identify query is accepted, finds one pending record, and that record's `verifyShortToken` differs from the one presented; the identify fields take no part in the comparison |
| VerifySignup.SignupAcceptsPending | src/verify-signup.js:36 | with one record found, getUserData accepts it exactly when it is unverified (or has staged changes) and unexpired, and otherwise names the first of the two conditions it fails |
| VerifySignup.SignupLookupFails | src/verify-signup.js:34-36 | zero or several records found: "user not found", store unchanged, only the lookup made |
| VerifySignup.SignupPreconditionFails | src/verify-signup.js:36 | a found record failing a condition: that condition is reported, store unchanged, no patch |
| VerifySignup.SignupMismatchBurns | src/verify-signup.js:38-44 | a token mismatch: one burn patch to the found record, "invalid token", no other record changed, `isVerified` and all non-verify fields kept |
| VerifySignup.SignupMatchCommits | src/verify-signup.js:46-48 | a token match: one commit patch, then the notifier with the patched record; the result is that record sanitized; field by field as CommittedRecord |
| VerifySignup.CommitVerifiesWhenClockSteady | src/verify-signup.js:46 | when the clock has not advanced past the check's reading, a successful call always sets `isVerified` to true |
| VerifySignup.SignupKeepsOtherRecords | src/verify-signup.js:59-60 | no record other than the one found changes |
| VerifySignup.SignupTouchesOnlyFoundRecord | src/verify-signup.js:39-46 | at most one patch per call, addressed to the found record; the store changes only on a burn or a commit |
| VerifySignup.InvalidTokenIffMismatch | src/verify-signup.js:38 | "invalid token" exactly when one record is found, it is pending, and some presented token field differs from it |
| VerifySignup.LongTokenNeverMismatches | src/verify-signup.js:16-20 | the long-token entry never fails with "invalid token": the record it finds holds the very token it looked up by |
| VerifySignup.ClearedRecordRejectsAttempts | src/verify-signup.js:36 | a record with a cleared `verifyExpires` fails a condition on every attempt at a non-negative time, store unchanged |
| VerifySignup.CallSpendsToken | src/verify-signup.js:50-58 | a call that burns or redeems leaves the found record with no verify token and no expiry |
| VerifySignup.SpentTokenNotFound | src/verify-signup.js:53-55 | after a burn or a redemption, no long token finds that record |
| VerifySignup.SpentTokenCannotBeReplayed | src/verify-signup.js:22-27 | after a burn or a redemption, a short-token attempt that finds the record fails a condition, never "invalid token", and changes nothing |
| VerifySignup.TokenQueryFindsNoneAfterCall | src/verify-signup.js:50-60 | a lookup query that fixes `verifyToken` to a string matches no record once a call through it has burned or redeemed |
| VerifySignup.RedeemedTokenHeldByNone | src/verify-signup.js:19 | after a long-token redemption, no stored record holds that token |
| VerifySignup.RedeemedLongTokenFindsNothing | src/verify-signup.js:16-20 | presenting a redeemed long token again, at any time, fails with "user not found" and changes nothing |
| SendResetPwd.ResetConditions | src/send-reset-pwd.js:23 | `isVerified` is required exactly when the check is not skipped, and is the only condition |
| SendResetPwd.ResetOutcome | src/send-reset-pwd.js:14-44 | no store call exactly when the identify query is invalid, and then a bad-query failure with the store unchanged; otherwise the lookup comes first; the set of stored ids is kept |
| SendResetPwd.ResetPatch | src/send-reset-pwd.js:25-32 | the new values are exactly the three reset fields: `resetExpires = now + resetDelay`, the composite reset token of the id and the long token, the short token |
| SendResetPwd.ResetFieldsReadBack | src/send-reset-pwd.js:36-41 | the three values read back from the account handed to the notifier are the new reset values |
| SendResetPwd.ResetAcceptsEligible | src/send-reset-pwd.js:23 | with one record found, getUserData accepts it exactly when it is verified or the check is skipped |
| SendResetPwd.ResetFailures | src/send-reset-pwd.js:19-23 | bad query, "user not found", unverified and success, each characterised exactly; every failure leaves the store unchanged and makes at most the lookup |
| SendResetPwd.IssuedRecord | src/send-reset-pwd.js:36-41 | the store's patch gives the same record the notifier got, with `resetExpires = now + resetDelay`, the composite reset token and the short token, and every other field unchanged |
| SendResetPwd.ResetOutcomeIssues | src/send-reset-pwd.js:25-43 | an accepted issuance: lookup, notifier with the account carrying the new values, patch of the three values; the store and the result hold that same account |
| SendResetPwd.ResetIssuesTokens | src/send-reset-pwd.js:25-41 | an eligible account found by a valid query: the whole outcome (result, store, call order) and the new values field by field, only the three reset fields changed |
| SendResetPwd.ReissueReplacesResetToken | src/send-reset-pwd.js:27-30 | a new long token always replaces the stored reset token with a different one |
| Scenarios.RedeemVerifies | src/verify-signup.js:46-48 | the unexpired account redeemed with its long token becomes verified with both tokens cleared |
| Scenarios.WrongLongTokenFindsNothing | src/verify-signup.js:19 | a wrong long token fails with "user not found" and leaves the account and its token as they were |
| Scenarios.WrongShortTokenBurns | src/verify-signup.js:38-44 | a wrong short token for the account found by email fails with "invalid token" and leaves it unverified with both tokens cleared |
| AccountStore.RecordStore.constructor | src/verify-signup.js:31-32 | a store over records that each hold their own id in an ordinary (non-workflow) id field, with an empty trace |
| AccountStore.RecordStore.Find | src/verify-signup.js:34-35 | returns the matching ids, changes no record and logs the lookup |
| AccountStore.RecordStore.Patch | src/verify-signup.js:59-60 | replaces exactly the one record by its patched version, keeps the id invariant and logs the patch |
| AccountStore.RecordStore.Notify | src/send-reset-pwd.js:34 | echoes the record, changes no record and logs the notification |
| AccountStore.RecordStore.IdOf | src/verify-signup.js:60 | a stored record's id field gives back its id |
| AccountStore.RecordStore.VerifySignup | src/verify-signup.js:29-62 | the step-by-step workflow returns, stores and logs exactly what SignupOutcome gives |
| AccountStore.RecordStore.VerifySignupLong | src/verify-signup.js:16-20 | as LongTokenOutcome, and never "invalid token" |
| AccountStore.RecordStore.VerifySignupShort | src/verify-signup.js:22-27 | as ShortTokenOutcome, with the query guard before the lookup |
| AccountStore.RecordStore.SendResetPwd | src/send-reset-pwd.js:14-44 | the step-by-step workflow returns, stores and logs exactly what ResetOutcome gives |

## Left out

- Token generation (`getLongToken`, `getShortToken`) is random. The generated tokens are
  parameters of the reset workflow, so token length and digit settings are not modelled.
- `concatIDAndHash` is not part of this model. It is modelled as `id + "___" + token`, and
  ConcatDistinctTokens and ConcatDistinctIds are facts about that stand-in.
- The notifier's delivery and the `debug` logging are left out. The notifier is modelled as
  echoing the record it is given. The reset notifier is not awaited, so its outcome cannot
  affect the patch; the model records only that it is called, and when.
- Asynchrony is left out: concurrent calls on one store, and the race between a lookup and
  the following patch. The model runs one call at a time on one store.
- Feathers service resolution (`options.app.service`) and the `customizeCalls` indirection
  are collapsed into the store's find and patch. The store's patch never rewrites the id
  field.
- Error classes and messages are left out. All errors are BadRequest in the source. The
  model keeps only the kinds: bad query, user not found, unmet condition (naming it) and
  invalid token.
- `Date.now()` readings are integer parameters.
- `ensureValuesAreStrings` is not modelled: the presented tokens are typed as strings.
- Store ids are strings. The id field holds the id as a string value.
- The record value of `verifyChanges` is read as staged changes only when it is an object.
  Any other truthy value (a string, say) is read as no staged changes. The source would
  copy such a value's own enumerable properties.
- `verifyExpires` is compared as a number. The source may also hold a date or a string
  there, which JavaScript's `>` converts first; the model has no date or string conversion.
- `sanitizeUserForClient` strips only the password field. Configured sanitizers that strip
  more are not modelled.
- The sequelize test and its `conversionSql` hook are storage mapping and are not part of
  this model.
- Store calls never fail in the model. In the source, a patch the store rejects at
  src/verify-signup.js:39 makes the call fail with the store's error, not "Invalid token".
  A patch rejected at src/send-reset-pwd.js:36-41 fails the call after the notifier
  (line 34) has already received tokens that were never stored.
- Helpers.ConcatDistinctTokens: holds of the `___` stand-in, not necessarily of the
  source's `concatIDAndHash`.
- Helpers.ConcatDistinctIds: holds of the `___` stand-in, not necessarily of the source's
  `concatIDAndHash`.
- SendResetPwd.ReissueReplacesResetToken: rests on ConcatDistinctTokens, so it too holds of
  the `___` stand-in, not necessarily of the source's `concatIDAndHash`.

## Behaviour worth noting

- A wrong long token does not fail with "invalid token". The long-token entry looks records
  up by the token itself (src/verify-signup.js:19), so a wrong token finds no record and the
  call fails with "user not found". The stored token is not burned. See
  Scenarios.WrongLongTokenFindsNothing and VerifySignup.LongTokenNeverMismatches. This rests
  on the model's find, which matches by exact equality (`Store.Matching`). The comparison
  at src/verify-signup.js:38 still runs on that path, and a store whose find matches more
  loosely (a case-insensitive collation, say) could return a record whose token differs
  from the presented one; that record would then be burned with "invalid token".
- Presenting a redeemed long token again does not fail a precondition. The redemption
  nulled the stored token, so the lookup finds nothing and the call fails with "user not
  found". See VerifySignup.RedeemedLongTokenFindsNothing.
- A short-token attempt on a spent record fails a precondition. Its `verifyExpires` is null.
  The model reads getUserData's `verifyNotExpired` as the strict comparison
  `verifyExpires > now` (`Helpers.Holds`), under which null compares as 0. See
  VerifySignup.SpentTokenCannotBeReplayed.
- The new `isVerified` is computed from a second clock reading, taken after the expiry
  check. A token that expires between the two readings is cleared, yet `isVerified` is set
  to false. See VerifySignup.SignupMatchCommits and
  VerifySignup.CommitVerifiesWhenClockSteady.
