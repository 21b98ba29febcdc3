/**
 * The browser session bag between the two legs of the flow. Only the two
 * entries the controllers touch are fields of their own; everything else
 * the framework keeps in the session is `others`.
 */
module SessionStore {

  import opened Js

  /** What the callback reads from the session: the PKCE verifier and the anti-CSRF state. */
  datatype AuthAttempt = AuthAttempt(codeVerifier: Json, oidcState: Json)

  class Session {
    var codeVerifier: Json
    var oidcState: Json
    var others: map<string, Json>

    /** A session in which no sign-in has started yet. */
    constructor (others: map<string, Json>)
      ensures codeVerifier == Undefined && oidcState == Undefined
      ensures this.others == others
    {
      codeVerifier := Undefined;
      oidcState := Undefined;
      this.others := others;
    }

    function Attempt(): (a: AuthAttempt)
      reads this
      ensures a.codeVerifier == codeVerifier && a.oidcState == oidcState
    {
      AuthAttempt(codeVerifier, oidcState)
    }
  }
}
