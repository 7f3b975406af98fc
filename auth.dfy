/**
 * Choosing an authenticator by name. The OAuth2 authenticator's own
 * work (decoding its parameters, reading the key file, the token exchange)
 * is external: its outcomes are inputs here.
 */
module Auth {
  import opened Wrappers
  import opened Text

  /** The decoded OAuth2 parameters. */
  datatype OAuth2Params = OAuth2Params(privateKey: string, issuerUrl: string, audience: string)

  datatype Authn = TokenAuthn(params: string) | OAuth2Authn(oauth: OAuth2Params)

  /**
   * `create`: the name is matched after ASCII lower-casing. "token" keeps the
   * params as the token; "oauth2" uses the outcome of decoding the params
   * (`oauth2Params`), error included; any other name is an error naming both
   * the name and the params.
   */
  function Create(authName: string, authParams: string, oauth2Params: Result<OAuth2Params, string>): (r: Result<Authn, string>)
    ensures ToLower(authName) == "token" ==> r == Ok(TokenAuthn(authParams))
    ensures ToLower(authName) == "oauth2" && oauth2Params.Ok? ==> r == Ok(OAuth2Authn(oauth2Params.value))
    ensures ToLower(authName) == "oauth2" && oauth2Params.Err? ==> r == Err(oauth2Params.error)
    ensures ToLower(authName) != "token" && ToLower(authName) != "oauth2" ==>
              r == Err("invalid auth [" + authName + "], [" + authParams + "]")
  {
    var name := ToLower(authName);
    if name == "token" then Ok(TokenAuthn(authParams))
    else if name == "oauth2" then
      match oauth2Params
      case Ok(p) => Ok(OAuth2Authn(p))
      case Err(e) => Err(e)
    else Err("invalid auth [" + authName + "], [" + authParams + "]")
  }

  /**
   * `get_token`: a token authenticator returns its params unchanged; an OAuth2
   * one returns the outcome of the token exchange (`exchange`).
   */
  function GetToken(a: Authn, exchange: Result<string, string>): (r: Result<string, string>)
    ensures a.TokenAuthn? ==> r == Ok(a.params)
    ensures a.OAuth2Authn? ==> r == exchange
  {
    match a
    case TokenAuthn(p) => Ok(p)
    case OAuth2Authn(_) => exchange
  }

  /** The auth name is case-insensitive. */
  lemma CreateIgnoresCase(a: string, b: string, params: string, oauth2Params: Result<OAuth2Params, string>)
    requires EqualIgnoringCase(a, b)
    ensures Create(a, params, oauth2Params).Ok? <==> Create(b, params, oauth2Params).Ok?
    ensures Create(a, params, oauth2Params).Ok? ==> Create(a, params, oauth2Params) == Create(b, params, oauth2Params)
  {
    EqualIgnoringCaseIff(a, b);
  }

  /** Round trip: whatever case "token" is written in, the token obtained is the params given. */
  lemma TokenRoundTrip(authName: string, params: string, oauth2Params: Result<OAuth2Params, string>, exchange: Result<string, string>)
    requires EqualIgnoringCase(authName, "token")
    ensures Create(authName, params, oauth2Params).Ok?
    ensures GetToken(Create(authName, params, oauth2Params).value, exchange) == Ok(params)
  {
    EqualIgnoringCaseIff(authName, "token");
    assert ToLower("token") == "token";
  }
}
