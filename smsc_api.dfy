/** The SMSC.ru gateway client of smsc_api.py: `request_smsc` checks the HTTP
    verb and the API operation, resolves the credentials, builds the request
    (transport, URL, parameters) and classifies the decoded reply of the gateway.
    The HTTP exchange itself is not modelled: the decoded reply is an input. */
module SmscApi {
  import opened PyValues
  import opened PyDicts

  const HttpMethods: set<string> := {"POST", "GET"}
  const ApiMethods: set<string> := {"send", "status"}

  const HttpMethodMessage: string := "Not the correct \"http_method\". Method must be \"POST\" or \"GET\"."
  const ApiMethodMessage: string := "Not the correct \"api_method\". Method must be \"send\" or \"status\"."

  const UrlPrefix: string := "https://smsc.ru/sys/"
  const UrlSuffix: string := ".php"

  /** The two request functions of the `asks` library the client dispatches to. */
  datatype Transport = AsksPost | AsksGet

  /** The process-wide defaults held in the `smsc_login` and `smsc_password`
      context variables; either may be `None` when the environment lacks it. */
  datatype Credentials = Credentials(login: Option<string>, password: Option<string>)

  /** What is handed to the transport: `funcs[http_method](url, params=params)`. */
  datatype Request = Request(transport: Transport, url: string, params: Dict)

  /** `explicit or default` for an `Optional[str]` argument: the explicit value
      when it is a non-empty string, the default (whatever it is, `None` included)
      otherwise. */
  function Resolve(explicit: Option<string>, default: Option<string>): (v: Value)
    ensures explicit.Some? && explicit.value != "" ==> v == Str(explicit.value)
    ensures explicit == None || explicit == Some("") ==> v == OptionalStr(default)
  {
    Or(OptionalStr(explicit), OptionalStr(default))
  }

  /** `funcs[http_method]` for a verb that passed the check. */
  function TransportFor(httpMethod: string): (t: Transport)
    requires httpMethod in HttpMethods
    ensures t == AsksPost <==> httpMethod == "POST"
    ensures t == AsksGet <==> httpMethod == "GET"
  {
    if httpMethod == "POST" then AsksPost else AsksGet
  }

  /** The f-string URL of an operation. */
  function Url(apiMethod: string): string {
    UrlPrefix + apiMethod + UrlSuffix
  }

  /** The fixed keys of the parameter dict literal, before `**payload`. */
  function BaseParams(login: Value, psw: Value): Dict {
    [("login", login), ("psw", psw), ("fmt", Int(3)), ("charset", Str("utf-8"))]
  }

  /** Everything `request_smsc` does before the network call. The verb is
      checked before the operation, and nothing is built when either is wrong. */
  function BuildRequest(httpMethod: string, apiMethod: string, login: Option<string>,
                        password: Option<string>, defaults: Credentials, payload: Dict)
    : (r: Result<Request, Exception>)
    ensures httpMethod !in HttpMethods ==> r == Failure(SmscApiError(Str(HttpMethodMessage)))
    ensures httpMethod in HttpMethods && apiMethod !in ApiMethods ==>
              r == Failure(SmscApiError(Str(ApiMethodMessage)))
    ensures r.Success? <==> httpMethod in HttpMethods && apiMethod in ApiMethods
    ensures r.Success? ==> r.value.transport == TransportFor(httpMethod)
    ensures r.Success? ==> r.value.url == Url(apiMethod)
    ensures r.Success? ==>
              r.value.params == Update(BaseParams(Resolve(login, defaults.login), Resolve(password, defaults.password)), payload)
  {
    if httpMethod !in HttpMethods then
      Failure(SmscApiError(Str(HttpMethodMessage)))
    else if apiMethod !in ApiMethods then
      Failure(SmscApiError(Str(ApiMethodMessage)))
    else
      var login := Resolve(login, defaults.login);
      var password := Resolve(password, defaults.password);
      Success(Request(TransportFor(httpMethod), Url(apiMethod),
                      Update(BaseParams(login, password), payload)))
  }

  /** The parameters hold `login`, `psw`, `fmt`, `charset` and every payload key
      and nothing else, with the fixed keys first, in the order of the literal. */
  lemma ParamsKeys(login: Value, psw: Value, payload: Dict)
    requires IsDict(payload)
    ensures var params := Update(BaseParams(login, psw), payload);
      && IsDict(params)
      && (forall k :: k in Keys(params) <==> k in FixedKeys || k in Keys(payload))
      && FixedKeys <= Keys(params)
  {
    var base := BaseParams(login, psw);
    assert Keys(base) == FixedKeys;
    UpdateDict(base, payload);
    UpdateKeys(base, payload);
  }

  const FixedKeys: seq<string> := ["login", "psw", "fmt", "charset"]

  /** A payload key wins over a fixed one; a fixed key the payload does not
      name keeps its value from the literal. */
  lemma ParamsValues(login: Value, psw: Value, payload: Dict)
    requires IsDict(payload)
    ensures var params := Update(BaseParams(login, psw), payload);
      && (forall k :: k in Keys(payload) ==> Get(params, k) == Get(payload, k))
      && ("login" !in Keys(payload) ==> Get(params, "login") == Some(login))
      && ("psw" !in Keys(payload) ==> Get(params, "psw") == Some(psw))
      && ("fmt" !in Keys(payload) ==> Get(params, "fmt") == Some(Int(3)))
      && ("charset" !in Keys(payload) ==> Get(params, "charset") == Some(Str("utf-8")))
  {
    var base := BaseParams(login, psw);
    var params := Update(base, payload);
    forall k | k in Keys(payload) ensures Get(params, k) == Get(payload, k) {
      UpdateGet(base, payload, k);
    }
    assert Keys(base) == FixedKeys;
    GetAt(base, 2);
    GetAt(base, 3);
    UpdateGet(base, payload, "login");
    UpdateGet(base, payload, "psw");
    UpdateGet(base, payload, "fmt");
    UpdateGet(base, payload, "charset");
  }

  /** `if response.get('error'): raise SmscApiError(response['error'])`,
      otherwise the decoded reply itself. */
  function Classify(response: Dict): (r: Result<Dict, Exception>)
    ensures "error" !in Keys(response) ==> r == Success(response)
    ensures r.Failure? <==> Get(response, "error").Some? && Truthy(Get(response, "error").value)
    ensures r.Failure? ==> r.error == SmscApiError(Get(response, "error").value)
    ensures r.Success? ==> r.value == response
  {
    GetPresent(response, "error");
    var error := GetOrNull(response, "error");
    if Truthy(error) then Failure(SmscApiError(error)) else Success(response)
  }

  /** The outcome is decided by the reply's `error` entry: a true value is
      raised, a false one lets the reply through unchanged. */
  lemma ClassifyEntry(response: Dict, i: nat)
    requires IsDict(response) && i < |response| && response[i].0 == "error"
    ensures Classify(response) ==
              if Truthy(response[i].1) then Failure(SmscApiError(response[i].1)) else Success(response)
  {
    GetAt(response, i);
  }

  /** Whether the reply carries a true `error` field. */
  predicate ErrorRaised(response: Dict) {
    Truthy(GetOrNull(response, "error"))
  }

  /** `request_smsc` with the decoded reply of the gateway given as `response`. */
  function RequestSmsc(httpMethod: string, apiMethod: string, login: Option<string>,
                       password: Option<string>, defaults: Credentials, payload: Dict,
                       response: Dict): (r: Result<Dict, Exception>)
    ensures httpMethod !in HttpMethods ==> r == Failure(SmscApiError(Str(HttpMethodMessage)))
    ensures httpMethod in HttpMethods && apiMethod !in ApiMethods ==>
              r == Failure(SmscApiError(Str(ApiMethodMessage)))
    ensures r.Success? <==> httpMethod in HttpMethods && apiMethod in ApiMethods && !ErrorRaised(response)
    ensures r.Success? ==> r.value == response
    ensures httpMethod in HttpMethods && apiMethod in ApiMethods && ErrorRaised(response) ==>
              r == Failure(SmscApiError(GetOrNull(response, "error")))
  {
    match BuildRequest(httpMethod, apiMethod, login, password, defaults, payload)
    case Failure(e) => Failure(e)
    case Success(_) => Classify(response)
  }

  /** A rejected call never looks at a reply: it fails the same way whatever the
      gateway would have answered. */
  lemma RejectionIgnoresReply(httpMethod: string, apiMethod: string, login: Option<string>,
                              password: Option<string>, defaults: Credentials, payload: Dict,
                              response: Dict, response': Dict)
    requires httpMethod !in HttpMethods || apiMethod !in ApiMethods
    ensures RequestSmsc(httpMethod, apiMethod, login, password, defaults, payload, response)
         == RequestSmsc(httpMethod, apiMethod, login, password, defaults, payload, response')
  {
  }

  /** The first example of the docstring: a `send` with explicit credentials and
      a phone number in the payload. */
  lemma SendExample()
    ensures BuildRequest("POST", "send", Some("smsc_login"), Some("smsc_password"),
                         Credentials(None, None), [("phones", Str("+79123456789"))])
         == Success(Request(AsksPost, "https://smsc.ru/sys/send.php",
                            [("login", Str("smsc_login")), ("psw", Str("smsc_password")), ("fmt", Int(3)),
                             ("charset", Str("utf-8")), ("phones", Str("+79123456789"))]))
  {
    var base := BaseParams(Str("smsc_login"), Str("smsc_password"));
    var phones := ("phones", Str("+79123456789"));
    assert Set(base[3..], phones.0, phones.1) == [base[3], phones];
    assert Set(base[2..], phones.0, phones.1) == [base[2], base[3], phones];
    assert Set(base[1..], phones.0, phones.1) == [base[1], base[2], base[3], phones];
    assert Set(base, phones.0, phones.1) == [base[0], base[1], base[2], base[3], phones];
    assert [phones][1..] == [];
    assert Update(base, [phones]) == Set(base, phones.0, phones.1);
    assert Url("send") == "https://smsc.ru/sys/send.php";
    assert Resolve(Some("smsc_login"), None) == Str("smsc_login");
    assert Resolve(Some("smsc_password"), None) == Str("smsc_password");
  }

  /** Replies: a gateway error is raised with its text; a false `error` value
      and a plain success reply come back unchanged. */
  lemma ReplyExamples()
    ensures Classify([("error", Str("invalid phone"))]) == Failure(SmscApiError(Str("invalid phone")))
    ensures Classify([("error", Str("")), ("id", Int(24))]) == Success([("error", Str("")), ("id", Int(24))])
    ensures Classify([("cnt", Int(1)), ("id", Int(24))]) == Success([("cnt", Int(1)), ("id", Int(24))])
  {
  }
}
