/**
 * The error value the Gaia fetcher reports to its consumer: a state drawn
 * from a closed set, the network error code of a connection failure, and
 * the captcha challenge of a CAPTCHA_REQUIRED error. Two errors are equal
 * when all of these are (Dafny's structural equality on the datatype).
 */
module GoogleServiceAuthErrors {

  datatype State =
    | NoError                 // NONE
    | InvalidGaiaCredentials  // INVALID_GAIA_CREDENTIALS
    | ConnectionFailed        // CONNECTION_FAILED
    | CaptchaRequired         // CAPTCHA_REQUIRED
    | AccountDeleted          // ACCOUNT_DELETED
    | AccountDisabled         // ACCOUNT_DISABLED
    | ServiceUnavailable      // SERVICE_UNAVAILABLE
    | TwoFactor               // TWO_FACTOR

  datatype Captcha = Captcha(token: string, imageUrl: string, unlockUrl: string)

  const NoCaptcha := Captcha("", "", "")

  datatype AuthError = AuthError(state: State, netError: int, captcha: Captcha)

  /** The error of a given state with no further detail. */
  function ErrorOf(state: State): (e: AuthError)
    ensures e.state == state && e.netError == 0 && e.captcha == NoCaptcha
  {
    AuthError(state, 0, NoCaptcha)
  }

  /** A transport failure, carrying the network error code. */
  function FromConnectionError(netError: int): (e: AuthError)
    ensures e.state == ConnectionFailed && e.netError == netError && e.captcha == NoCaptcha
  {
    AuthError(ConnectionFailed, netError, NoCaptcha)
  }

  /** A ClientLogin captcha challenge. */
  function FromClientLoginCaptchaChallenge(token: string, imageUrl: string, unlockUrl: string): (e: AuthError)
    ensures e.state == CaptchaRequired && e.netError == 0
    ensures e.captcha == Captcha(token, imageUrl, unlockUrl)
  {
    AuthError(CaptchaRequired, 0, Captcha(token, imageUrl, unlockUrl))
  }

  /** Connection errors compare equal exactly when their codes do. */
  lemma ConnectionErrorsEqualIffCodesEqual(a: int, b: int)
    ensures FromConnectionError(a) == FromConnectionError(b) <==> a == b
  {
  }

  /** The NONE error differs from every connection error and equals itself. */
  lemma NoErrorIsNotAConnectionError(netError: int)
    ensures ErrorOf(NoError) != FromConnectionError(netError)
    ensures ErrorOf(NoError) == AuthError(NoError, 0, NoCaptcha)
  {
  }
}
