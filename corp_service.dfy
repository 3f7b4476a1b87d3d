/**
 The client of the corporate person service (src/corpservice.rs): a
 service-to-service access token obtained with the OAuth 2.0 client
 credentials grant (section 4.4 of RFC 6749), then a GET of
 `<service url>/person/<user id>` with that token.

 Configuration values and HTTP replies are inputs. A reply is either no
 response at all or a status with the body read as the expected JSON
 (`None` when the body does not parse). Planning a request and interpreting
 its reply are separate functions, so that "no request is sent" is a
 statement about the plan.
 */
module CorpService {
  import opened Basics
  import Decimal

  /** The ways the two calls fail, in the order the code checks them. */
  datatype CorpError =
    | MissingTokenUrl
    | MissingClientId
    | MissingClientSecret
    | TokenTransport
    | TokenHttp(status: int)
    | TokenParse
    | MissingServiceUrl
    | PersonTransport
    | PersonParse
    | UnexpectedStatus(status: int)

  /** `AUTH_ACCESSTOKEN_CLIENT_URL`, `CLIENT_ID`, `CLIENT_SECRET`, each possibly unset. */
  datatype ClientCredentials = ClientCredentials(tokenUrl: Option<string>, clientId: Option<string>, clientSecret: Option<string>)

  datatype AccessTokenResponse = AccessTokenResponse(accessToken: string, tokenType: string, expiresIn: i32)

  datatype HttpReply<T> = Unreachable | Reply(status: int, body: Option<T>)

  /** A credential of this service itself, never an end user's bearer token. */
  datatype ServiceToken = ServiceToken(value: string)

  /** The token request: a form POST with basic authentication. */
  datatype TokenRequest = TokenRequest(url: string, clientId: string, clientSecret: string, form: seq<(string, string)>)

  const ClientCredentialsForm: seq<(string, string)> := [("grant_type", "client_credentials")]

  /** The token request that `corp_service_user_token` sends, if its configuration is complete. */
  function PlanTokenRequest(creds: ClientCredentials): (r: Result<TokenRequest, CorpError>)
    ensures r.Ok? <==> creds.tokenUrl.Some? && creds.clientId.Some? && creds.clientSecret.Some?
    ensures r.Ok? ==> r.value == TokenRequest(creds.tokenUrl.value, creds.clientId.value, creds.clientSecret.value, ClientCredentialsForm)
    ensures creds.tokenUrl.None? ==> r == Err(MissingTokenUrl)
    ensures creds.tokenUrl.Some? && creds.clientId.None? ==> r == Err(MissingClientId)
    ensures creds.tokenUrl.Some? && creds.clientId.Some? && creds.clientSecret.None? ==> r == Err(MissingClientSecret)
  {
    match creds.tokenUrl
    case None => Err(MissingTokenUrl)
    case Some(url) =>
      match creds.clientId
      case None => Err(MissingClientId)
      case Some(id) =>
        match creds.clientSecret
        case None => Err(MissingClientSecret)
        case Some(secret) => Ok(TokenRequest(url, id, secret, ClientCredentialsForm))
  }

  /** What the token endpoint's reply means: a 2xx status with a parseable body yields its `access_token`. */
  function InterpretTokenReply(reply: HttpReply<AccessTokenResponse>): (r: Result<ServiceToken, CorpError>)
    ensures r.Ok? <==> reply.Reply? && IsSuccess(reply.status) && reply.body.Some?
    ensures r.Ok? ==> r.value == ServiceToken(reply.body.value.accessToken)
  {
    match reply
    case Unreachable => Err(TokenTransport)
    case Reply(status, body) =>
      if !IsSuccess(status) then Err(TokenHttp(status))
      else match body
        case None => Err(TokenParse)
        case Some(t) => Ok(ServiceToken(t.accessToken))
  }

  /** `corp_service_user_token`: configuration first, then the reply of the token endpoint. */
  function UserToken(creds: ClientCredentials, reply: HttpReply<AccessTokenResponse>): (r: Result<ServiceToken, CorpError>)
    ensures PlanTokenRequest(creds).Err? ==> r == Err(PlanTokenRequest(creds).error)
    ensures r.Ok? <==> PlanTokenRequest(creds).Ok? && reply.Reply? && IsSuccess(reply.status) && reply.body.Some?
    ensures r.Ok? ==> r.value.value == reply.body.value.accessToken
  {
    match PlanTokenRequest(creds)
    case Err(e) => Err(e)
    case Ok(_) => InterpretTokenReply(reply)
  }

  datatype PersonData = PersonData(id: i32, dni: string, nombre: string, apellidos: string, email: string, telefono: string)
  datatype AppData = AppData(id: i32, clientId: string, clientUrl: string)
  datatype PersonAppData = PersonAppData(id: i32, personId: i32, authClientId: i32, profile: string)

  /** The denormalised person record the service returns. */
  datatype UserData = UserData(person: PersonData, lapp: seq<AppData>, lpersonapp: seq<PersonAppData>)

  const PersonPath: string := "/person/"

  /**
   The lookup URL: the configured base, "/person/", and the decimal user id,
   which reads back as the user id.
   */
  function PersonUrl(base: string, userId: i32): (url: string)
    ensures url == base + PersonPath + Decimal.Render(userId)
    ensures |url| > |base| + |PersonPath|
    ensures url[..|base| + |PersonPath|] == base + PersonPath
    ensures Decimal.Parse(url[|base| + |PersonPath|..]) == Some(userId as int)
  {
    var url := base + PersonPath + Decimal.Render(userId);
    assert url[|base| + |PersonPath|..] == Decimal.Render(userId);
    Decimal.RenderRoundTrip(userId);
    url
  }

  /** Under one base URL, different users are looked up at different URLs. */
  lemma PersonUrlInjective(base: string, a: i32, b: i32)
    requires PersonUrl(base, a) == PersonUrl(base, b)
    ensures a == b
  {
    var url := PersonUrl(base, a);
    assert url[|base| + |PersonPath|..] == PersonUrl(base, b)[|base| + |PersonPath|..];
  }

  datatype PersonRequest = PersonRequest(url: string, bearer: ServiceToken)

  /**
   The person GET that `corp_service_userdata_by_id` sends: only once a
   service token is in hand, and only with `CORP_SERVICE_USERDATA_URL` set.
   */
  function PlanPersonRequest(token: Result<ServiceToken, CorpError>, serviceUrl: Option<string>, userId: i32)
    : (r: Result<PersonRequest, CorpError>)
    ensures token.Err? ==> r == Err(token.error)
    ensures token.Ok? && serviceUrl.None? ==> r == Err(MissingServiceUrl)
    ensures r.Ok? <==> token.Ok? && serviceUrl.Some?
    ensures r.Ok? ==> r.value == PersonRequest(PersonUrl(serviceUrl.value, userId), token.value)
  {
    match token
    case Err(e) => Err(e)
    case Ok(t) =>
      match serviceUrl
      case None => Err(MissingServiceUrl)
      case Some(base) => Ok(PersonRequest(PersonUrl(base, userId), t))
  }

  /**
   The person reply by status: 200 with a parseable body is the record, 404
   is "no such person", and every other status (other 2xx codes included)
   is an error, as is a 200 whose body does not parse.
   */
  function ClassifyPerson(reply: HttpReply<UserData>): (r: Result<Option<UserData>, CorpError>)
    ensures r == Ok(None) <==> reply.Reply? && reply.status == 404
    ensures (r.Ok? && r.value.Some?) <==> reply.Reply? && reply.status == 200 && reply.body.Some?
    ensures r.Ok? && r.value.Some? ==> r.value == reply.body
    ensures reply.Reply? && reply.status == 200 && reply.body.None? ==> r == Err(PersonParse)
    ensures reply.Reply? && reply.status != 200 && reply.status != 404 ==> r == Err(UnexpectedStatus(reply.status))
    ensures reply.Unreachable? ==> r == Err(PersonTransport)
  {
    match reply
    case Unreachable => Err(PersonTransport)
    case Reply(status, body) =>
      if status == 200 then
        match body
        case Some(d) => Ok(Some(d))
        case None => Err(PersonParse)
      else if status == 404 then Ok(None)
      else Err(UnexpectedStatus(status))
  }

  /**
   `corp_service_userdata_by_id`: the token, the request, then the
   classification of the reply. Without a token or a service URL the call
   fails before any lookup; with both, the person reply alone decides.
   */
  function UserDataById(creds: ClientCredentials, tokenReply: HttpReply<AccessTokenResponse>,
                        serviceUrl: Option<string>, userId: i32, personReply: HttpReply<UserData>)
    : (r: Result<Option<UserData>, CorpError>)
    ensures UserToken(creds, tokenReply).Err? ==> r == Err(UserToken(creds, tokenReply).error)
    ensures UserToken(creds, tokenReply).Ok? && serviceUrl.None? ==> r == Err(MissingServiceUrl)
    ensures r == Ok(None) <==>
      UserToken(creds, tokenReply).Ok? && serviceUrl.Some? && personReply.Reply? && personReply.status == 404
    ensures (r.Ok? && r.value.Some?) <==>
      UserToken(creds, tokenReply).Ok? && serviceUrl.Some? &&
      personReply.Reply? && personReply.status == 200 && personReply.body.Some?
    ensures r.Ok? && r.value.Some? ==> r.value == personReply.body
  {
    match PlanPersonRequest(UserToken(creds, tokenReply), serviceUrl, userId)
    case Err(e) => Err(e)
    case Ok(_) => ClassifyPerson(personReply)
  }

  /**
   Without a service token there is no person lookup: the outcome is the
   same whatever the person endpoint would have answered.
   */
  lemma NoLookupWithoutToken(creds: ClientCredentials, tokenReply: HttpReply<AccessTokenResponse>,
                             serviceUrl: Option<string>, userId: i32,
                             personReply1: HttpReply<UserData>, personReply2: HttpReply<UserData>)
    requires UserToken(creds, tokenReply).Err?
    ensures PlanPersonRequest(UserToken(creds, tokenReply), serviceUrl, userId).Err?
    ensures UserDataById(creds, tokenReply, serviceUrl, userId, personReply1) ==
            UserDataById(creds, tokenReply, serviceUrl, userId, personReply2)
  {
  }
}
