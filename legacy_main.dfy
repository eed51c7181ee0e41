/** The earlier `request_smsc` of main.py. It checks the verb and the operation
    like smsc_api.py does (with messages lacking the final full stop), builds the
    URL with `str.format`, starts the parameters as `{login, psw, fmt}` without a
    `charset` and then updates them in place with the payload. On success it calls
    `.json()` a second time, on the already decoded dict. */
module LegacyMain {
  import opened PyValues
  import opened PyDicts
  import SmscApi

  const HttpMethodMessage: string := "Not the correct \"http_method\". Method must be \"POST\" or \"GET\""
  const ApiMethodMessage: string := "Not the correct \"api_method\". Method must be \"send\" or \"status\""

  const BaseUrl: string := "https://smsc.ru/sys/{}.php"

  /** What Python raises for `response.json()` when `response` is a dict. */
  const NoJsonMessage: string := "'dict' object has no attribute 'json'"

  /** `template.format(arg)` for a template with one replacement field `{}`:
      the first `{}` is replaced by the argument. */
  function Format(template: string, arg: string): string {
    if |template| < 2 then template
    else if template[0] == '{' && template[1] == '}' then arg + template[2..]
    else [template[0]] + Format(template[1..], arg)
  }

  /** Formatting a template with exactly one field, `{}`, and no other brace
      fills the field with the argument and keeps the text around it. */
  lemma {:induction false} FormatFills(pre: string, post: string, arg: string)
    requires '{' !in pre && '}' !in pre && '{' !in post && '}' !in post
    ensures Format(pre + "{}" + post, arg) == pre + arg + post
  {
    if pre != [] {
      assert (pre + "{}" + post)[1..] == pre[1..] + "{}" + post;
      FormatFills(pre[1..], post, arg);
    }
  }

  /** `base_url.format(api_method)` is the URL smsc_api.py builds with an f-string. */
  lemma UrlAgrees(apiMethod: string)
    ensures Format(BaseUrl, apiMethod) == SmscApi.Url(apiMethod)
  {
    assert BaseUrl == SmscApi.UrlPrefix + "{}" + SmscApi.UrlSuffix;
    FormatFills(SmscApi.UrlPrefix, SmscApi.UrlSuffix, apiMethod);
  }

  /** The parameter dict before the update: `{login, psw, fmt: 3}`. */
  function BaseParams(login: Value, psw: Value): Dict {
    [("login", login), ("psw", psw), ("fmt", Int(3))]
  }

  /** Everything main.py's `request_smsc` does before the network call. The
      parameters start as `BaseParams` and take the payload's entries one by one,
      as `params.update(payload)` does. */
  method BuildRequest(httpMethod: string, apiMethod: string, login: Option<string>,
                      password: Option<string>, defaults: SmscApi.Credentials, payload: Dict)
    returns (r: Result<SmscApi.Request, Exception>)
    ensures httpMethod != "POST" && httpMethod != "GET" ==>
              r == Failure(MainSmscApiError(Str(HttpMethodMessage)))
    ensures (httpMethod == "POST" || httpMethod == "GET") && apiMethod != "send" && apiMethod != "status" ==>
              r == Failure(MainSmscApiError(Str(ApiMethodMessage)))
    ensures r.Success? <==> httpMethod in SmscApi.HttpMethods && apiMethod in SmscApi.ApiMethods
    ensures r.Success? ==> r.value.transport == SmscApi.TransportFor(httpMethod)
    ensures r.Success? ==> r.value.url == SmscApi.UrlPrefix + apiMethod + SmscApi.UrlSuffix
    ensures r.Success? ==>
              r.value.params == Update(BaseParams(SmscApi.Resolve(login, defaults.login),
                                                  SmscApi.Resolve(password, defaults.password)), payload)
  {
    if httpMethod != "POST" && httpMethod != "GET" {
      return Failure(MainSmscApiError(Str(HttpMethodMessage)));
    }
    if apiMethod != "send" && apiMethod != "status" {
      return Failure(MainSmscApiError(Str(ApiMethodMessage)));
    }
    var login := SmscApi.Resolve(login, defaults.login);
    var password := SmscApi.Resolve(password, defaults.password);
    var params := BaseParams(login, password);
    var i := 0;
    while i < |payload|
      invariant 0 <= i <= |payload|
      invariant Update(params, payload[i..]) == Update(BaseParams(login, password), payload)
    {
      params := Set(params, payload[i].0, payload[i].1);
      i := i + 1;
    }
    UrlAgrees(apiMethod);
    r := Success(SmscApi.Request(SmscApi.TransportFor(httpMethod), Format(BaseUrl, apiMethod), params));
  }

  /** The two variants send the same parameters except `charset`: smsc_api.py's
      are exactly main.py's for a payload that starts with `charset='utf-8'`, so
      main.py sends a `charset` only when the payload carries one. */
  lemma ParamsAgree(login: Value, psw: Value, payload: Dict)
    requires IsDict(payload)
    ensures Update(SmscApi.BaseParams(login, psw), payload)
         == Update(BaseParams(login, psw), [("charset", Str("utf-8"))] + payload)
    ensures Get(Update(BaseParams(login, psw), payload), "charset") == Get(payload, "charset")
    ensures forall k :: k != "charset" ==>
              Get(Update(BaseParams(login, psw), payload), k) == Get(Update(SmscApi.BaseParams(login, psw), payload), k)
  {
    var p := [("charset", Str("utf-8"))] + payload;
    assert p[1..] == payload;
    var b, utf8 := BaseParams(login, psw), Str("utf-8");
    assert b[3..] == [];
    assert Set(b[2..], "charset", utf8) == [b[2], ("charset", utf8)];
    assert Set(b[1..], "charset", utf8) == [b[1], b[2], ("charset", utf8)];
    assert Set(b, "charset", utf8) == SmscApi.BaseParams(login, psw);
    var legacy := Update(BaseParams(login, psw), payload);
    GetPresent(payload, "charset");
    assert Keys(BaseParams(login, psw)) == ["login", "psw", "fmt"];
    GetPresent(BaseParams(login, psw), "charset");
    UpdateGet(BaseParams(login, psw), payload, "charset");
    forall k | k != "charset"
      ensures Get(legacy, k) == Get(Update(SmscApi.BaseParams(login, psw), payload), k)
    {
      UpdateGet(BaseParams(login, psw), payload, k);
      UpdateGet(SmscApi.BaseParams(login, psw), payload, k);
      SetGet(BaseParams(login, psw), "charset", Str("utf-8"), k);
    }
  }

  /** main.py's `request_smsc` as written, with the decoded reply given as
      `response`. Its success path calls `.json()` on that dict, so it never
      returns: every call raises. */
  method RequestSmscAsWritten(httpMethod: string, apiMethod: string, login: Option<string>,
                              password: Option<string>, defaults: SmscApi.Credentials, payload: Dict,
                              response: Dict)
    returns (r: Result<Dict, Exception>)
    ensures r.Failure?
    ensures httpMethod !in SmscApi.HttpMethods ==> r == Failure(MainSmscApiError(Str(HttpMethodMessage)))
    ensures httpMethod in SmscApi.HttpMethods && apiMethod !in SmscApi.ApiMethods ==>
              r == Failure(MainSmscApiError(Str(ApiMethodMessage)))
    ensures httpMethod in SmscApi.HttpMethods && apiMethod in SmscApi.ApiMethods ==>
              r == if SmscApi.ErrorRaised(response) then Failure(MainSmscApiError(GetOrNull(response, "error")))
                   else Failure(AttributeError(NoJsonMessage))
  {
    var request := BuildRequest(httpMethod, apiMethod, login, password, defaults, payload);
    if request.Failure? {
      return Failure(request.error);
    }
    var checked := SmscApi.Classify(response);
    if checked.Failure? {
      return Failure(MainSmscApiError(checked.error.arg));
    }
    r := Failure(AttributeError(NoJsonMessage));
  }

  /** main.py's `request_smsc` with the decoded reply returned, as smsc_api.py
      does. It then fails exactly when smsc_api.py's fails, raising main.py's own
      `SmscApiError` with the same argument, and otherwise returns the same reply. */
  method RequestSmsc(httpMethod: string, apiMethod: string, login: Option<string>,
                     password: Option<string>, defaults: SmscApi.Credentials, payload: Dict,
                     response: Dict)
    returns (r: Result<Dict, Exception>)
    ensures httpMethod !in SmscApi.HttpMethods ==> r == Failure(MainSmscApiError(Str(HttpMethodMessage)))
    ensures httpMethod in SmscApi.HttpMethods && apiMethod !in SmscApi.ApiMethods ==>
              r == Failure(MainSmscApiError(Str(ApiMethodMessage)))
    ensures r.Success? ==> r.value == response
    ensures r.Failure? <==> SmscApi.RequestSmsc(httpMethod, apiMethod, login, password, defaults, payload, response).Failure?
    ensures httpMethod in SmscApi.HttpMethods && apiMethod in SmscApi.ApiMethods ==>
              r == match SmscApi.RequestSmsc(httpMethod, apiMethod, login, password, defaults, payload, response)
                   case Success(reply) => Success(reply)
                   case Failure(e) => Failure(MainSmscApiError(e.arg))
  {
    var request := BuildRequest(httpMethod, apiMethod, login, password, defaults, payload);
    if request.Failure? {
      return Failure(request.error);
    }
    var checked := SmscApi.Classify(response);
    if checked.Failure? {
      return Failure(MainSmscApiError(checked.error.arg));
    }
    r := Success(response);
  }
}
