/**
 * Walk-throughs of signup verification on one concrete unverified
 * account, derived from the general lemmas.
 */
module Scenarios {
  import opened Records
  import opened Helpers
  import opened Store
  import opened VerifySignup

  /** The store's id field. */
  const IdKey: Key := Other("id")

  /** Deployment options: identify by email, one-hour reset delay, verified check on. */
  const Opts: Options := Options({Other("email")}, Other("password"), 3600000, false)

  /** An unverified account with long token "abc", short token "1234", expiring at 2000. */
  function Account(): (rec: Record)
  {
    map[
      IdKey := Str("1"),
      Other("email") := Str("ann@example.com"),
      IsVerified := Bool(false),
      VerifyToken := Str("abc"),
      VerifyShortToken := Str("1234"),
      VerifyExpires := Num(2000)]
  }

  /** A store holding only that account. */
  function Accounts(): (records: map<Id, Record>)
  {
    map["1" := Account()]
  }

  /** The account is the only record any query it matches can find. */
  lemma FindsAccount(query: Record)
    requires Matches(Account(), query)
    ensures Matching(Accounts(), query) == {"1"}
  {
  }

  /** Redeeming "abc" at time 1000 verifies the account and clears both tokens. */
  lemma RedeemVerifies()
    ensures var o := LongTokenOutcome(Accounts(), IdKey, Opts, "abc", 1000, 1000);
            && o.result.Ok?
            && Field(o.records["1"], IsVerified) == Bool(true)
            && Field(o.records["1"], VerifyToken) == Null
            && Field(o.records["1"], VerifyShortToken) == Null
  {
    var q := LongTokenQuery("abc");
    FindsAccount(q);
    assert ExpiresAfter(Field(Accounts()["1"], VerifyExpires), 1000);
    assert Pending(Accounts()["1"], 1000);
    SignupMatchCommits(Accounts(), IdKey, Opts, q, q, 1000, 1000, "1");
  }

  /**
   * A wrong long token at time 1000 finds no record, since the token is
   * also the lookup query: the call fails with UserNotFound and the account
   * keeps its token.
   */
  lemma WrongLongTokenFindsNothing()
    ensures var o := LongTokenOutcome(Accounts(), IdKey, Opts, "xyz", 1000, 1000);
            o.result == Err(UserNotFound) && o.records == Accounts()
  {
    var q := LongTokenQuery("xyz");
    assert Matching(Accounts(), q) == {} by {
      assert Field(Account(), VerifyToken) == Str("abc");
      assert "abc"[0] != "xyz"[0];
    }
    SignupLookupFails(Accounts(), IdKey, Opts, q, q, 1000, 1000);
  }

  /**
   * A wrong short token for the account found by its email burns both
   * tokens: the call fails with InvalidToken and the account stays
   * unverified with no token left to present.
   */
  lemma WrongShortTokenBurns()
    ensures var o := ShortTokenOutcome(Accounts(), IdKey, Opts, "9999",
                                       map[Other("email") := Str("ann@example.com")], 1000, 1000);
            && o.result == Err(InvalidToken)
            && Field(o.records["1"], VerifyToken) == Null
            && Field(o.records["1"], VerifyShortToken) == Null
            && Field(o.records["1"], IsVerified) == Bool(false)
  {
    var identify := map[Other("email") := Str("ann@example.com")];
    var tokens := map[VerifyShortToken := Str("9999")];
    assert IdentifyQueryValid(identify, Opts.identifyUserProps) by {
      assert Other("email") in identify && Other("email") in Opts.identifyUserProps;
    }
    FindsAccount(identify);
    assert !Matches(Account(), tokens) by {
      assert Field(Account(), VerifyShortToken) != tokens[VerifyShortToken];
    }
    assert Field(Accounts()["1"], IsVerified) == Bool(false);
    SignupMismatchBurns(Accounts(), IdKey, Opts, identify, tokens, 1000, 1000, "1");
  }
}
