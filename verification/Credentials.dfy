/** Signed tokens and the checks made on their claims (token.service.ts). */
module Credentials {
  import opened Wrappers

  datatype Provider = Local | Facebook

  datatype UserType = Landlord | RealEstateAgent | Customer

  /** A token signed with the service's key. `jti` is a fresh number for every token minted.
      Access and refresh tokens have the same shape: only the stored hash tells them apart. */
  datatype Token =
    | Session(jti: nat, sub: string, email: string, isEmailVerified: bool, twoFactorEnabled: bool,
              twoFactorVerified: bool, userType: Option<UserType>, provider: Provider, iat: int, exp: int)
    | Reset(jti: nat, email: string, iat: int, exp: int)

  const SECONDS_PER_DAY := 86400
  const CLOCK_SKEW := 60
  const MAX_TOKEN_AGE := 7 * SECONDS_PER_DAY
  const RESET_LIFETIME := 900

  // Durations other than '1d' and '7d' make the source throw.
  function CalculateExpirationTime(expiresIn: string, now: int): Option<int> {
    if expiresIn == "1d" then Some(now + SECONDS_PER_DAY)
    else if expiresIn == "7d" then Some(now + 7 * SECONDS_PER_DAY)
    else None
  }

  // validateTokenClaims without its MFA option: the checks in the source's order, where a
  // zero claim counts as a missing one.
  predicate ClaimsValid(sub: string, email: string, iat: int, exp: int, now: int) {
    && sub != "" && email != ""
    && exp != 0 && exp > now - CLOCK_SKEW
    && iat != 0 && iat <= now + CLOCK_SKEW
    && now - iat <= MAX_TOKEN_AGE
  }

  // The signature library's own expiry check (section 4.1.4 of RFC 7519).
  predicate Unexpired(exp: int, now: int) {
    now < exp
  }

  // A token issued at iat, whose exp was computed `delay` seconds later, is accepted on one
  // interval of times. In validateTokenClaims alone the age bound hides the skew of a '7d'
  // token; behind the signature library the skew on exp never matters at all.
  lemma ClaimWindow(sub: string, email: string, iat: int, delay: nat, expiresIn: string, now: int)
    requires sub != "" && email != "" && iat > 0 && expiresIn in {"1d", "7d"}
    ensures var exp := CalculateExpirationTime(expiresIn, iat + delay).value;
            && (ClaimsValid(sub, email, iat, exp, now) <==>
                iat - 60 <= now <= if expiresIn == "7d" || exp + 59 > iat + 604800 then iat + 604800 else exp + 59)
            && (ClaimsValid(sub, email, iat, exp, now) && Unexpired(exp, now) <==>
                iat - 60 <= now <= if exp - 1 > iat + 604800 then iat + 604800 else exp - 1)
  {
  }
}
