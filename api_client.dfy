/**
 * The API client: the five backend calls, each turning whatever the network
 * hands back into a result envelope, plus the client's configuration.
 */
module ApiClient {
  import opened Wrappers
  import Js
  import opened Apisauce
  import opened ApiProblem

  /** `Config.API_URL` of the development configuration. */
  const API_URL: string := "https://basilisk-evolved-rarely.ngrok-free.app/v1/"

  /** `DEFAULT_API_CONFIG`. */
  const DEFAULT_API_CONFIG: ApiConfig := ApiConfig(API_URL, 10000)

  /** The default headers every request of the apisauce instance carries. */
  const DEFAULT_HEADERS: map<string, string> := map["Accept" := "application/json"]

  /**
   * The envelope a request method returns: `{kind: "ok", data}` carrying the
   * whole response, a classified problem, or `{kind: "bad-data", error}`
   * for a thrown exception (its field is `error`, not `message`).
   */
  datatype ApiResult = Ok(data: ApiResponse) | Problem(problem: GeneralApiProblem) | BadDataError(error: string)

  /** The `kind` field of an envelope. */
  function ResultKind(r: ApiResult): string {
    match r
    case Ok(_) => "ok"
    case Problem(p) => KindName(p.kind)
    case BadDataError(_) => "bad-data"
  }

  /** An ITransactionCreate: the fields of a new transaction. */
  datatype TransactionCreate = TransactionCreate(
    account: string, description: string, amount: real, transactionType: string, tokenId: string)

  /** The default configuration: a 10-second timeout against the configured API URL. */
  lemma DefaultConfig()
    ensures DEFAULT_API_CONFIG.timeout == 10000 && DEFAULT_API_CONFIG.url == API_URL
  {
  }

  /** An `Api` object: its configuration and the apisauce instance built from it. */
  class Api {
    var config: ApiConfig
    var apisauce: Instance

    constructor(config: ApiConfig := DEFAULT_API_CONFIG)
      ensures this.config == config
      ensures apisauce == Instance(config.url, config.timeout, DEFAULT_HEADERS)
    {
      this.config := config;
      this.apisauce := Instance(config.url, config.timeout, DEFAULT_HEADERS);
    }
  }

  /** The per-call headers of an authenticated request. */
  function BearerHeaders(authToken: string): map<string, string> {
    map["Authorization" := "Bearer " + authToken]
  }

  /** The credentials POST of `login`: both fields as strings, no per-call headers. */
  function LoginRequest(phoneNumber: string, password: string): (q: Request)
    ensures q.verb == Post && q.path == "/auth/login" && q.headers == map[]
    ensures q.payload.Keys == {"phoneNumber", "password"}
    ensures q.payload["phoneNumber"] == Js.Str(phoneNumber) && q.payload["password"] == Js.Str(password)
  {
    Request(Post, "/auth/login", map["phoneNumber" := Js.Str(phoneNumber), "password" := Js.Str(password)], map[])
  }

  /** The lookup POST of `checkPhoneNumber`: the number alone, no per-call headers. */
  function CheckPhoneNumberRequest(phoneNumber: string): (q: Request)
    ensures q.verb == Post && q.path == "users/by-phone-number" && q.headers == map[]
    ensures q.payload.Keys == {"phoneNumber"} && q.payload["phoneNumber"] == Js.Str(phoneNumber)
  {
    Request(Post, "users/by-phone-number", map["phoneNumber" := Js.Str(phoneNumber)], map[])
  }

  /** The GET of `getAccount`: no body, the bearer token as the only per-call header. */
  function GetAccountRequest(authToken: string): (q: Request)
    ensures q.verb == Get && q.path == "accounts/by-user-id" && q.payload == map[]
    ensures q.headers.Keys == {"Authorization"} && q.headers["Authorization"] == "Bearer " + authToken
  {
    Request(Get, "accounts/by-user-id", map[], BearerHeaders(authToken))
  }

  /** The GET of `getTransactions`: no body, the bearer token as the only per-call header. */
  function GetTransactionsRequest(authToken: string): (q: Request)
    ensures q.verb == Get && q.path == "transactions/by-user-id" && q.payload == map[]
    ensures q.headers.Keys == {"Authorization"} && q.headers["Authorization"] == "Bearer " + authToken
  {
    Request(Get, "transactions/by-user-id", map[], BearerHeaders(authToken))
  }

  /** The five fields of `trxData` as the JSON object that is spread into the body. */
  function TransactionFields(t: TransactionCreate): map<string, Js.Value> {
    map["account" := Js.Str(t.account), "description" := Js.Str(t.description), "amount" := Js.Num(t.amount),
        "transactionType" := Js.Str(t.transactionType), "tokenId" := Js.Str(t.tokenId)]
  }

  /**
   * What `generateChecksum` does with a payload: it yields a digest, or it
   * throws (as the keyed hash does when no key is configured).
   */
  datatype ChecksumOutcome = Computed(digest: string) | ChecksumThrew(message: string)

  /** `generateChecksum`: a keyed hash outside this model, so a parameter of the calls that use it. */
  type Checksum = map<string, Js.Value> -> ChecksumOutcome

  /** `{...trxData, checksum: digest}`, where `digest` is what `generateChecksum(trxData)` yielded. */
  function TransactionBody(t: TransactionCreate, digest: string): (body: map<string, Js.Value>)
    ensures body.Keys == TransactionFields(t).Keys + {"checksum"}
    ensures "checksum" !in TransactionFields(t)
    ensures forall k :: k in TransactionFields(t) ==> body[k] == TransactionFields(t)[k]
    ensures body["checksum"] == Js.Str(digest)
  {
    TransactionFields(t)["checksum" := Js.Str(digest)]
  }

  /** The POST of `createTransaction`: the checksummed body and the bearer token as the only per-call header. */
  function CreateTransactionRequest(authToken: string, t: TransactionCreate, digest: string): (q: Request)
    ensures q.verb == Post && q.path == "transactions" && q.payload == TransactionBody(t, digest)
    ensures q.headers.Keys == {"Authorization"} && q.headers["Authorization"] == "Bearer " + authToken
  {
    Request(Post, "transactions", TransactionBody(t, digest), BearerHeaders(authToken))
  }

  /**
   * The result shaping shared by `checkPhoneNumber`, `getAccount`,
   * `getTransactions` and `createTransaction`.
   */
  function Envelope(o: CallOutcome): (r: ApiResult)
    ensures r.BadDataError? <==> o.Threw?
    ensures r.BadDataError? ==> r.error == o.message
    ensures r.Problem? <==> o.Responded? && !o.response.ok && GetGeneralApiProblem(o.response).Some?
    ensures r.Problem? ==> Some(r.problem) == GetGeneralApiProblem(o.response)
    ensures r.Ok? ==> o.Responded? && r.data == o.response
  {
    match o
    case Threw(m) => BadDataError(m)
    case Responded(response) =>
      if !response.ok then
        match GetGeneralApiProblem(response)
        case Some(problem) => Problem(problem)
        case None => Ok(response)
      else Ok(response)
  }

  /**
   * The result shaping of `login`: as `Envelope`, except that a problem's
   * message is replaced by `response.data?.message || ""`.
   */
  function LoginEnvelope(o: CallOutcome): (r: ApiResult)
    ensures r.BadDataError? <==> o.Threw?
    ensures r.BadDataError? ==> r.error == o.message
    ensures r.Problem? <==> o.Responded? && !o.response.ok && GetGeneralApiProblem(o.response).Some?
    ensures r.Problem? ==>
      var p := GetGeneralApiProblem(o.response).value;
      r.problem.kind == p.kind && r.problem.temporary == p.temporary && r.problem.message == MessageOr(o.response, "")
    ensures r.Ok? ==> o.Responded? && r.data == o.response
  {
    match o
    case Threw(m) => BadDataError(m)
    case Responded(response) =>
      if !response.ok then
        match GetGeneralApiProblem(response)
        case Some(problem) => Problem(problem.(message := MessageOr(response, "")))
        case None => Ok(response)
      else Ok(response)
  }

  /** `login(phoneNumber, password)`: POST the credentials, no auth header. */
  function Login(phoneNumber: string, password: string, net: Network): (r: ApiResult)
    ensures var o := net(LoginRequest(phoneNumber, password));
      && (r.Ok? ==> o == Responded(r.data))
      && (r.Problem? <==> o.Responded? && !o.response.ok && GetGeneralApiProblem(o.response).Some?)
      && (r.Problem? ==> r.problem.kind == GetGeneralApiProblem(o.response).value.kind
                         && r.problem.temporary == GetGeneralApiProblem(o.response).value.temporary
                         && r.problem.message == MessageOr(o.response, ""))
      && (r.BadDataError? <==> o.Threw?)
      && (r.BadDataError? ==> r.error == o.message)
  {
    LoginEnvelope(net(LoginRequest(phoneNumber, password)))
  }

  /** `checkPhoneNumber(phoneNumber)`. */
  function CheckPhoneNumber(phoneNumber: string, net: Network): (r: ApiResult)
    ensures var o := net(CheckPhoneNumberRequest(phoneNumber));
      && (r.Ok? ==> o == Responded(r.data))
      && (r.Problem? <==> o.Responded? && !o.response.ok && GetGeneralApiProblem(o.response).Some?)
      && (r.Problem? ==> Some(r.problem) == GetGeneralApiProblem(o.response))
      && (r.BadDataError? <==> o.Threw?)
      && (r.BadDataError? ==> r.error == o.message)
  {
    Envelope(net(CheckPhoneNumberRequest(phoneNumber)))
  }

  /** `getAccount(authToken)`. */
  function GetAccount(authToken: string, net: Network): (r: ApiResult)
    ensures var o := net(GetAccountRequest(authToken));
      && (r.Ok? ==> o == Responded(r.data))
      && (r.Problem? <==> o.Responded? && !o.response.ok && GetGeneralApiProblem(o.response).Some?)
      && (r.Problem? ==> Some(r.problem) == GetGeneralApiProblem(o.response))
      && (r.BadDataError? <==> o.Threw?)
      && (r.BadDataError? ==> r.error == o.message)
  {
    Envelope(net(GetAccountRequest(authToken)))
  }

  /** `getTransactions(authToken)`. */
  function GetTransactions(authToken: string, net: Network): (r: ApiResult)
    ensures var o := net(GetTransactionsRequest(authToken));
      && (r.Ok? ==> o == Responded(r.data))
      && (r.Problem? <==> o.Responded? && !o.response.ok && GetGeneralApiProblem(o.response).Some?)
      && (r.Problem? ==> Some(r.problem) == GetGeneralApiProblem(o.response))
      && (r.BadDataError? <==> o.Threw?)
      && (r.BadDataError? ==> r.error == o.message)
  {
    Envelope(net(GetTransactionsRequest(authToken)))
  }

  /**
   * `createTransaction(authToken, trxData)`. The checksum is computed inside
   * the `try`, before anything is sent: when it throws, no request is made
   * and the result is `bad-data` with its message.
   */
  function CreateTransaction(authToken: string, trxData: TransactionCreate, checksum: Checksum, net: Network): (r: ApiResult)
    ensures checksum(TransactionFields(trxData)).ChecksumThrew? ==>
      r == BadDataError(checksum(TransactionFields(trxData)).message)
    ensures checksum(TransactionFields(trxData)).Computed? ==>
      var o := net(CreateTransactionRequest(authToken, trxData, checksum(TransactionFields(trxData)).digest));
      && (r.Ok? ==> o == Responded(r.data))
      && (r.Problem? <==> o.Responded? && !o.response.ok && GetGeneralApiProblem(o.response).Some?)
      && (r.Problem? ==> Some(r.problem) == GetGeneralApiProblem(o.response))
      && (r.BadDataError? <==> o.Threw?)
      && (r.BadDataError? ==> r.error == o.message)
  {
    match checksum(TransactionFields(trxData))
    case ChecksumThrew(m) => BadDataError(m)
    case Computed(digest) => Envelope(net(CreateTransactionRequest(authToken, trxData, digest)))
  }

  // ---------------------------------------------------------------------
  // Properties of the client
  // ---------------------------------------------------------------------

  /** Every problem an envelope carries has the shape its union member declares, and is never `bad-data`. */
  lemma EnvelopeProblemsConform(o: CallOutcome)
    ensures Envelope(o).Problem? ==> ConformsToUnion(Envelope(o).problem) && Envelope(o).problem.kind != BadData
    ensures LoginEnvelope(o).Problem? ==> ConformsToUnion(LoginEnvelope(o).problem) && LoginEnvelope(o).problem.kind != BadData
  {
  }

  /** A successful response is returned whole, by every method. */
  lemma OkCarriesWholeResponse(phoneNumber: string, password: string, authToken: string, trxData: TransactionCreate,
                               checksum: Checksum, net: Network)
    ensures net(LoginRequest(phoneNumber, password)).Responded? && net(LoginRequest(phoneNumber, password)).response.ok ==>
      Login(phoneNumber, password, net) == Ok(net(LoginRequest(phoneNumber, password)).response)
    ensures net(CheckPhoneNumberRequest(phoneNumber)).Responded? && net(CheckPhoneNumberRequest(phoneNumber)).response.ok ==>
      CheckPhoneNumber(phoneNumber, net) == Ok(net(CheckPhoneNumberRequest(phoneNumber)).response)
    ensures net(GetAccountRequest(authToken)).Responded? && net(GetAccountRequest(authToken)).response.ok ==>
      GetAccount(authToken, net) == Ok(net(GetAccountRequest(authToken)).response)
    ensures net(GetTransactionsRequest(authToken)).Responded? && net(GetTransactionsRequest(authToken)).response.ok ==>
      GetTransactions(authToken, net) == Ok(net(GetTransactionsRequest(authToken)).response)
    ensures checksum(TransactionFields(trxData)).Computed? ==>
      var q := CreateTransactionRequest(authToken, trxData, checksum(TransactionFields(trxData)).digest);
      net(q).Responded? && net(q).response.ok ==> CreateTransaction(authToken, trxData, checksum, net) == Ok(net(q).response)
  {
  }

  /**
   * A non-ok response that classifies to a problem is returned as that
   * problem, verbatim, by the four methods other than `login`.
   */
  lemma ProblemsPropagateVerbatim(phoneNumber: string, authToken: string, trxData: TransactionCreate,
                                  checksum: Checksum, digest: string, net: Network, q: Request)
    requires checksum(TransactionFields(trxData)) == Computed(digest)
    requires q in {CheckPhoneNumberRequest(phoneNumber), GetAccountRequest(authToken),
                   GetTransactionsRequest(authToken), CreateTransactionRequest(authToken, trxData, digest)}
    requires net(q).Responded? && !net(q).response.ok
    requires GetGeneralApiProblem(net(q).response).Some?
    ensures var expected := Problem(GetGeneralApiProblem(net(q).response).value);
      && (q == CheckPhoneNumberRequest(phoneNumber) ==> CheckPhoneNumber(phoneNumber, net) == expected)
      && (q == GetAccountRequest(authToken) ==> GetAccount(authToken, net) == expected)
      && (q == GetTransactionsRequest(authToken) ==> GetTransactions(authToken, net) == expected)
      && (q == CreateTransactionRequest(authToken, trxData, digest) ==> CreateTransaction(authToken, trxData, checksum, net) == expected)
  {
  }

  /**
   * `login` keeps the problem's kind and temporary flag but not the
   * classifier's default message: with no body message it reports "".
   */
  lemma LoginDropsDefaultMessage(response: ApiResponse)
    requires !response.ok && GetGeneralApiProblem(response).Some?
    requires response.data.None? || response.data.value.message.None?
    ensures LoginEnvelope(Responded(response)).Problem?
    ensures LoginEnvelope(Responded(response)).problem.message == ""
    ensures Envelope(Responded(response)).problem.message == DefaultMessage(Envelope(Responded(response)).problem.kind)
  {
  }

  /** A non-ok response that classifies to nothing (a cancelled request) falls through to `ok`. */
  lemma CancelledFallsThroughToOk(response: ApiResponse)
    requires !response.ok && GetGeneralApiProblem(response).None?
    ensures Envelope(Responded(response)) == Ok(response)
    ensures LoginEnvelope(Responded(response)) == Ok(response)
  {
  }

  /** The cancel tag, on any status, always falls through to `ok`. */
  lemma CancelErrorIsOk(status: Option<int>, data: Option<ResponseBody>)
    ensures Envelope(Responded(ApiResponse(false, Some("CANCEL_ERROR"), status, data))).Ok?
    ensures ResultKind(LoginEnvelope(Responded(ApiResponse(false, Some("CANCEL_ERROR"), status, data)))) == "ok"
  {
  }

  /** A thrown exception never escapes: it becomes `bad-data` with the exception's message as `error`. */
  lemma ExceptionsBecomeBadData(message: string)
    ensures Envelope(Threw(message)) == BadDataError(message)
    ensures LoginEnvelope(Threw(message)) == BadDataError(message)
    ensures ResultKind(Envelope(Threw(message))) == "bad-data"
  {
  }

  /** The three account calls authenticate with a bearer token; login and the phone lookup send no such header. */
  lemma AuthorizationHeaders(phoneNumber: string, password: string, authToken: string, trxData: TransactionCreate,
                             digest: string)
    ensures "Authorization" !in LoginRequest(phoneNumber, password).headers
    ensures "Authorization" !in CheckPhoneNumberRequest(phoneNumber).headers
    ensures GetAccountRequest(authToken).headers["Authorization"] == "Bearer " + authToken
    ensures GetTransactionsRequest(authToken).headers["Authorization"] == "Bearer " + authToken
    ensures CreateTransactionRequest(authToken, trxData, digest).headers["Authorization"] == "Bearer " + authToken
  {
  }

  /** What the receiver checks: the `checksum` field equals the checksum of every other field. */
  predicate ChecksumVerifies(body: map<string, Js.Value>, checksum: Checksum) {
    && "checksum" in body
    && checksum(body - {"checksum"}).Computed?
    && body["checksum"] == Js.Str(checksum(body - {"checksum"}).digest)
  }

  /**
   * Whenever a transaction is sent, the receiver, stripping `checksum` from
   * the transmitted body and recomputing it over what is left, obtains the
   * transmitted checksum.
   */
  lemma {:induction false} TransactionBodyVerifies(authToken: string, t: TransactionCreate, checksum: Checksum)
    requires checksum(TransactionFields(t)).Computed?
    ensures ChecksumVerifies(CreateTransactionRequest(authToken, t, checksum(TransactionFields(t)).digest).payload, checksum)
  {
    var body := TransactionBody(t, checksum(TransactionFields(t)).digest);
    assert body - {"checksum"} == TransactionFields(t);
  }

  /** A checksum that throws never escapes and sends nothing: the call is `bad-data` with its message. */
  lemma ChecksumFailureIsBadData(authToken: string, t: TransactionCreate, message: string, net: Network)
    ensures CreateTransaction(authToken, t, _ => ChecksumThrew(message), net) == BadDataError(message)
    ensures ResultKind(CreateTransaction(authToken, t, _ => ChecksumThrew(message), net)) == "bad-data"
  {
  }
}
