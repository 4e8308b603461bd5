/** Token and cron helpers of the notification scheduler (src/fcm/utils.rs). The JWT decoder
    and the cron parser are foreign libraries and appear as function parameters. */
module FcmUtils {
  import opened Wrappers

  /** A point in time (`NaiveDateTime`), as a number of seconds. */
  type Time = int

  /** The two claims the scheduler reads from a Firebase ID token. */
  datatype Claims = Claims(aud: string, userId: string)

  const BearerPrefix: string := "Bearer "

  /** `extract_claims`: `header` is the `firebase-auth` header (None when absent) and
      `decode` the JWT decoder with signature checking disabled (None on any failure). */
  function ExtractClaims(header: Option<string>, decode: string -> Option<Claims>): (r: Result<Claims, string>)
    ensures header.None? ==> r == Failure("unable to extract token")
    ensures header.Some? && r.Failure? ==> r.error == "invalid token"
    ensures r.Success? <==>
              header.Some? && BearerPrefix <= header.value && decode(header.value[|BearerPrefix|..]).Some?
    ensures r.Success? ==> r.value == decode(header.value[|BearerPrefix|..]).value
  {
    match header
    case None => Failure("unable to extract token")
    case Some(h) =>
      if !(BearerPrefix <= h) then Failure("invalid token")
      else
        match decode(h[|BearerPrefix|..])
        case Some(claims) => Success(claims)
        case None => Failure("invalid token")
  }

  /** Exactly the text after "Bearer " reaches the decoder, and its claims come back unchanged. */
  lemma ExtractClaimsOfBearer(token: string, decode: string -> Option<Claims>)
    ensures decode(token).Some? ==> ExtractClaims(Some(BearerPrefix + token), decode) == Success(decode(token).value)
    ensures decode(token).None? ==> ExtractClaims(Some(BearerPrefix + token), decode) == Failure("invalid token")
  {
    assert (BearerPrefix + token)[|BearerPrefix|..] == token;
  }

  /** What the cron parser does with a pattern at the current time. */
  datatype CronOutcome = Panicked | ParseError(message: string) | Next(time: Time)

  /** `decode_cron`: both a panic inside the parser and a parse error become
      "Invalid cron pattern"; otherwise the next time the pattern fires. */
  function DecodeCron(pattern: string, parse: string -> CronOutcome): (r: Result<Time, string>)
    ensures r.Success? <==> parse(pattern).Next?
    ensures r.Success? ==> r.value == parse(pattern).time
    ensures r.Failure? ==> r.error == "Invalid cron pattern"
  {
    match parse(pattern)
    case Panicked => Failure("Invalid cron pattern")
    case ParseError(_) => Failure("Invalid cron pattern")
    case Next(t) => Success(t)
  }
}
