/**
 * The JWT expiry check: a token whose `exp` claim, pushed back by the
 * configured leeway, lies before the current time is rejected with a
 * token-expired error; a token without `exp` is never rejected here.
 * The clock is a parameter (`now`, in Unix seconds).
 */
module ExpiredClaim {
  import opened Wrappers

  datatype TokenError = TokenExpired(message: string)

  const ExpiredMessage := "Token has expired"

  /** The validator's options; only `leeway` (seconds) is read. */
  type Options = map<string, int>

  /** The leeway option, or no leeway when it is not given. */
  function Leeway(options: Options): (r: int)
    ensures "leeway" in options ==> r == options["leeway"]
    ensures "leeway" !in options ==> r == 0
  {
    if "leeway" in options then options["leeway"] else 0
  }

  /** `ExpiredCliam::validate($claims)` at time `now`. */
  function Validate(options: Options, claims: map<string, int>, now: int): (r: Result<(), TokenError>)
    ensures r.Err? <==> "exp" in claims && claims["exp"] + Leeway(options) < now
    ensures r.Err? ==> r.error == TokenExpired(ExpiredMessage)
  {
    if "exp" in claims && claims["exp"] + Leeway(options) < now then Err(TokenExpired(ExpiredMessage))
    else Ok(())
  }

  /** Claims without `exp` always pass. */
  lemma NoExpiryValid(options: Options, claims: map<string, int>, now: int)
    requires "exp" !in claims
    ensures Validate(options, claims, now).Ok?
  {
  }

  /** A token valid at some time stays valid at every earlier time. */
  lemma ValidEarlier(options: Options, claims: map<string, int>, now: int, earlier: int)
    requires earlier <= now
    requires Validate(options, claims, now).Ok?
    ensures Validate(options, claims, earlier).Ok?
  {
  }

  /** A token valid with some leeway stays valid with any larger leeway. */
  lemma ValidMoreLeeway(claims: map<string, int>, now: int, leeway: int, more: int)
    requires leeway <= more
    requires Validate(map["leeway" := leeway], claims, now).Ok?
    ensures Validate(map["leeway" := more], claims, now).Ok?
  {
  }

  /** 2000-01-01T00:00:00Z, the frozen test clock. */
  const TestNow := 946684800

  /** With a leeway of an hour: no `exp`, `exp` an hour ahead, and `exp` exactly an hour ago all pass. */
  lemma ValidCases()
    ensures Validate(map["leeway" := 3600], map[], TestNow).Ok?
    ensures Validate(map["leeway" := 3600], map["exp" := TestNow + 3600], TestNow).Ok?
    ensures Validate(map["leeway" := 3600], map["exp" := TestNow - 3600], TestNow).Ok?
  {
  }

  /** Without options, `exp` an hour ago fails with "Token has expired". */
  lemma InvalidCase()
    ensures Validate(map[], map["exp" := TestNow - 3600], TestNow) == Err(TokenExpired("Token has expired"))
  {
  }
}
