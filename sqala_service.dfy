/**
 * The Sqala client of src/services/sqala.service.ts: one HTTP client whose request interceptor
 * authenticates every request, a module-level access-token cache, and the two calls that
 * validate their input before anything is sent.
 *
 * The network is modelled by its two ends: every request the client puts on the wire is appended
 * to `sent`, and the reply the server would give is a parameter (`TokenReply` for the token
 * endpoint, `Reply` for the others). The clock `Date.now()` is the parameter `now`, in
 * milliseconds. Every request here is a POST.
 */
module SqalaService {
  import opened Wrappers
  import opened PixKeys
  import PixHelpers

  const TokenUrl := "/access-tokens"
  const TopupUrl := "/pix-qrcode-payments"
  const WithdrawalUrl := "/recipients/DEFAULT/withdrawals"

  type Headers = map<string, string>

  /** The headers the client is created with. */
  const DefaultHeaders: Headers := map["Content-Type" := "application/json"]

  /** The JSON bodies the client posts (`pixMethod` is the `method` field of a withdrawal). */
  datatype Body =
    | TokenBody(refreshToken: string)
    | TopupBody(amount: real)
    | WithdrawalBody(pixMethod: string, amount: real, pixKey: string)

  datatype Request = Request(url: string, headers: Headers, body: Body)

  /** The answer of `POST /access-tokens`: `data.token` and `data.expiresIn`, or an axios error. */
  datatype TokenReply = TokenGranted(token: string, expiresIn: int) | TokenRequestFailed(reason: string)

  /** The answer of any other request: its `data`, or an axios error. */
  datatype Reply<T> = Replied(data: T) | Failed(reason: string)

  /** The part of a deposit (`DepositResponse`) that `topupAccount` returns. */
  datatype DepositData = DepositData(id: string, payload: string)

  /** The part of a `WithdrawalResponse` a caller reads. */
  datatype WithdrawalData = WithdrawalData(id: string, status: string, amount: real, pixKey: string)

  /** What the calls throw: a validation `Error` with its message, or the failed request. */
  datatype SqalaError = Invalid(message: string) | RequestFailed(reason: string)

  /** A `string | null` in a JavaScript condition: present and not empty. */
  predicate TruthyString(s: Option<string>)
  {
    s.Some? && s.value != ""
  }

  /** A `number | null` in a JavaScript condition: present and not zero. */
  predicate TruthyNumber(n: Option<int>)
  {
    n.Some? && n.value != 0
  }

  /** The body `topupAccount` posts: the amount in cents, or the validation error that stops the call. */
  function TopupRequestBody(amountDecimal: real): (r: Result<Body, string>)
    ensures r.Ok? <==> PixHelpers.MinAmountDecimal <= amountDecimal <= PixHelpers.MaxAmountDecimal
    ensures r.Ok? ==> r.value.TopupBody? && r.value.amount / 100.0 == amountDecimal
    ensures r.Err? ==> r.error == PixHelpers.ProcessPixAmount(amountDecimal).error
  {
    var amount := PixHelpers.ProcessPixAmount(amountDecimal);
    if amount.Err? then Err(amount.error) else Ok(TopupBody(amount.value))
  }

  /**
   * The body `payStaticPix` posts: method "PIX", the amount in cents and the formatted key. The key
   * is checked first, so an invalid key is reported even when the amount is out of range too.
   */
  function WithdrawalRequestBody(v: Validators, pixKey: string, amountDecimal: real): (r: Result<Body, string>)
    ensures FirstAccepting(v, pixKey, DispatchOrder).None? ==> r == Err("Invalid Pix key")
    ensures FirstAccepting(v, pixKey, DispatchOrder).Some? ==>
      (r.Ok? <==> PixHelpers.MinAmountDecimal <= amountDecimal <= PixHelpers.MaxAmountDecimal)
    ensures FirstAccepting(v, pixKey, DispatchOrder).Some? && r.Err? ==>
      r.error == PixHelpers.ProcessPixAmount(amountDecimal).error
    ensures r.Ok? ==> r.value.WithdrawalBody? && r.value.pixMethod == "PIX" && r.value.amount / 100.0 == amountDecimal
    ensures r.Ok? ==>
      r.value.pixKey == Canonical(v, DispatchOrder[FirstAccepting(v, pixKey, DispatchOrder).value], pixKey)
  {
    var validatedPixKey := PixHelpers.ProcessPixKey(v, pixKey);
    if validatedPixKey.Err? then Err(validatedPixKey.error)
    else
      var validatedAmountCents := PixHelpers.ProcessPixAmount(amountDecimal);
      if validatedAmountCents.Err? then Err(validatedAmountCents.error)
      else Ok(WithdrawalBody("PIX", validatedAmountCents.value, validatedPixKey.value))
  }

  /**
   * `sqalaApiClient` together with the module-level `accessToken` and `tokenExpiryTime`.
   * `encode` is the base-64 encoder of the `base-64` package.
   */
  class SqalaClient {
    const appId: string
    const appSecret: string
    const refreshToken: string
    const encode: string -> string
    var accessToken: Option<string>
    var tokenExpiryTime: Option<int>
    /** Every request put on the wire, oldest first. */
    var sent: seq<Request>

    /** The client as the module loads: no token and no expiry yet. */
    constructor (appId: string, appSecret: string, refreshToken: string, encode: string -> string)
      ensures this.appId == appId && this.appSecret == appSecret && this.refreshToken == refreshToken
      ensures this.encode == encode
      ensures accessToken == None && tokenExpiryTime == None && sent == []
    {
      this.appId := appId;
      this.appSecret := appSecret;
      this.refreshToken := refreshToken;
      this.encode := encode;
      accessToken := None;
      tokenExpiryTime := None;
      sent := [];
    }

    /** The cache check of `getAccessToken`: a non-empty token and an expiry still ahead of the clock. */
    predicate HasFreshToken(now: int)
      reads this
    {
      TruthyString(accessToken) && TruthyNumber(tokenExpiryTime) && now < tokenExpiryTime.value
    }

    /** The header of the token request: `Basic` and the encoded `appId:appSecret`. */
    function BasicAuthorization(): string
    {
      "Basic " + encode(appId + ":" + appSecret)
    }

    /** The request `getAccessToken` posts, as the interceptor lets it through. */
    function TokenRequest(): Request
    {
      Request(TokenUrl, DefaultHeaders["Authorization" := BasicAuthorization()], TokenBody(refreshToken))
    }

    /**
     * `getAccessToken`: the cached token while it is fresh, with no request; otherwise one token
     * request, whose token and raw `expiresIn` replace the cache. A failed request is rethrown and
     * leaves the cache as it was.
     */
    method GetAccessToken(now: int, reply: TokenReply) returns (r: Result<string, string>)
      modifies this
      ensures old(HasFreshToken(now)) ==>
        r == Ok(old(accessToken).value) && accessToken == old(accessToken)
        && tokenExpiryTime == old(tokenExpiryTime) && sent == old(sent)
      ensures !old(HasFreshToken(now)) ==> sent == old(sent) + [TokenRequest()]
      ensures !old(HasFreshToken(now)) && reply.TokenGranted? ==>
        r == Ok(reply.token) && accessToken == Some(reply.token) && tokenExpiryTime == Some(reply.expiresIn)
      ensures !old(HasFreshToken(now)) && reply.TokenGranted? ==>
        forall later :: HasFreshToken(later) <==> reply.token != "" && reply.expiresIn != 0 && later < reply.expiresIn
      ensures !old(HasFreshToken(now)) && reply.TokenRequestFailed? ==>
        r == Err(reply.reason) && accessToken == old(accessToken) && tokenExpiryTime == old(tokenExpiryTime)
    {
      if HasFreshToken(now) {
        return Ok(accessToken.value);
      }
      sent := sent + [TokenRequest()];
      match reply
      case TokenGranted(token, expiresIn) =>
        accessToken := Some(token);
        tokenExpiryTime := Some(expiresIn);
        r := Ok(token);
      case TokenRequestFailed(reason) =>
        r := Err(reason);
    }

    /**
     * The request interceptor: the token URL gets the Basic header and nothing else happens;
     * every other URL gets `Bearer <token>`, or, when the token cannot be had, goes out with the
     * headers it had.
     */
    method Intercept(url: string, headers: Headers, now: int, tokenReply: TokenReply) returns (h: Headers)
      modifies this
      ensures url == TokenUrl ==>
        h == headers["Authorization" := BasicAuthorization()]
        && accessToken == old(accessToken) && tokenExpiryTime == old(tokenExpiryTime) && sent == old(sent)
      ensures url != TokenUrl && old(HasFreshToken(now)) ==>
        h == headers["Authorization" := "Bearer " + old(accessToken).value]
        && accessToken == old(accessToken) && tokenExpiryTime == old(tokenExpiryTime) && sent == old(sent)
      ensures url != TokenUrl && !old(HasFreshToken(now)) ==> sent == old(sent) + [TokenRequest()]
      ensures url != TokenUrl && !old(HasFreshToken(now)) && tokenReply.TokenGranted? ==>
        h == headers["Authorization" := "Bearer " + tokenReply.token]
        && accessToken == Some(tokenReply.token) && tokenExpiryTime == Some(tokenReply.expiresIn)
      ensures url != TokenUrl && !old(HasFreshToken(now)) && tokenReply.TokenRequestFailed? ==>
        h == headers && accessToken == old(accessToken) && tokenExpiryTime == old(tokenExpiryTime)
    {
      if url == TokenUrl {
        return headers["Authorization" := BasicAuthorization()];
      }
      var token := GetAccessToken(now, tokenReply);
      if token.Ok? {
        h := headers["Authorization" := "Bearer " + token.value];
      } else {
        h := headers;
      }
    }

    /** `sqalaApiClient.post(url, body)` for a URL other than the token URL: the interceptor, then the wire. */
    method Post(url: string, body: Body, now: int, tokenReply: TokenReply)
      requires url != TokenUrl
      modifies this
      ensures old(HasFreshToken(now)) ==>
        sent == old(sent) + [Request(url, DefaultHeaders["Authorization" := "Bearer " + old(accessToken).value], body)]
        && accessToken == old(accessToken) && tokenExpiryTime == old(tokenExpiryTime)
      ensures !old(HasFreshToken(now)) && tokenReply.TokenGranted? ==>
        sent == old(sent) + [TokenRequest(), Request(url, DefaultHeaders["Authorization" := "Bearer " + tokenReply.token], body)]
        && accessToken == Some(tokenReply.token) && tokenExpiryTime == Some(tokenReply.expiresIn)
      ensures !old(HasFreshToken(now)) && tokenReply.TokenRequestFailed? ==>
        sent == old(sent) + [TokenRequest(), Request(url, DefaultHeaders, body)]
        && accessToken == old(accessToken) && tokenExpiryTime == old(tokenExpiryTime)
    {
      var headers := Intercept(url, DefaultHeaders, now, tokenReply);
      sent := sent + [Request(url, headers, body)];
    }

    /**
     * `topupAccount`: validates the amount, posts it in cents and returns the QR payload. An
     * invalid amount throws before anything is sent or the token is touched.
     */
    method TopupAccount(amountDecimal: real, now: int, tokenReply: TokenReply, reply: Reply<DepositData>)
      returns (r: Result<string, SqalaError>)
      modifies this
      ensures TopupRequestBody(amountDecimal).Err? ==>
        r == Err(Invalid(TopupRequestBody(amountDecimal).error))
        && accessToken == old(accessToken) && tokenExpiryTime == old(tokenExpiryTime) && sent == old(sent)
      ensures TopupRequestBody(amountDecimal).Ok? ==>
        |sent| > |old(sent)| && sent[..|old(sent)|] == old(sent)
        && sent[|sent| - 1].url == TopupUrl && sent[|sent| - 1].body == TopupRequestBody(amountDecimal).value
      ensures TopupRequestBody(amountDecimal).Ok? ==>
        r == match reply case Replied(data) => Ok(data.payload) case Failed(reason) => Err(RequestFailed(reason))
    {
      var body := TopupRequestBody(amountDecimal);
      if body.Err? {
        return Err(Invalid(body.error));
      }
      Post(TopupUrl, body.value, now, tokenReply);
      match reply
      case Replied(data) => r := Ok(data.payload);
      case Failed(reason) => r := Err(RequestFailed(reason));
    }

    /**
     * `payStaticPix`: validates the key, then the amount, then posts the withdrawal. Either
     * validation error throws before anything is sent or the token is touched.
     */
    method PayStaticPix(v: Validators, pixKey: string, amountDecimal: real, now: int, tokenReply: TokenReply,
                        reply: Reply<WithdrawalData>)
      returns (r: Result<WithdrawalData, SqalaError>)
      modifies this
      ensures WithdrawalRequestBody(v, pixKey, amountDecimal).Err? ==>
        r == Err(Invalid(WithdrawalRequestBody(v, pixKey, amountDecimal).error))
        && accessToken == old(accessToken) && tokenExpiryTime == old(tokenExpiryTime) && sent == old(sent)
      ensures WithdrawalRequestBody(v, pixKey, amountDecimal).Ok? ==>
        |sent| > |old(sent)| && sent[..|old(sent)|] == old(sent)
        && sent[|sent| - 1].url == WithdrawalUrl
        && sent[|sent| - 1].body == WithdrawalRequestBody(v, pixKey, amountDecimal).value
      ensures WithdrawalRequestBody(v, pixKey, amountDecimal).Ok? ==>
        r == match reply case Replied(data) => Ok(data) case Failed(reason) => Err(RequestFailed(reason))
    {
      var body := WithdrawalRequestBody(v, pixKey, amountDecimal);
      if body.Err? {
        return Err(Invalid(body.error));
      }
      Post(WithdrawalUrl, body.value, now, tokenReply);
      match reply
      case Replied(data) => r := Ok(data);
      case Failed(reason) => r := Err(RequestFailed(reason));
    }
  }
}
