# SMSC.ru gateway client, modelled in Dafny

This project models the request side of a small SMS mailing service that sends
messages through the SMSC.ru HTTP gateway. It covers three pieces of the source:

- `request_smsc` in `smsc_api.py` (module `SmscApi`). It checks the HTTP verb
  (`POST`/`GET`) and then the API operation (`send`/`status`). It resolves the
  login and password: an explicit argument if it is truthy, otherwise the
  process-wide default. It builds the URL `https://smsc.ru/sys/<op>.php` and
  the parameter dict `{login, psw, fmt: 3, charset: 'utf-8', **payload}`. It
  raises `SmscApiError` when the decoded reply has a truthy `error` field, and
  otherwise returns the reply unchanged.
- The earlier `request_smsc` in `main.py` (module `LegacyMain`). It does the
  same checks, with messages that lack the final full stop. It builds the URL
  with `str.format`. It starts the parameters without `charset` and then updates
  them in place with the payload, a step modelled as a loop that assigns the
  payload's entries one by one.
- `FormValidator.check_text_field` in `validators.py` (module `Validators`).
  It rejects an empty `text` field.

Two shared modules support them:

- `PyValues` holds Python values, their truthiness, the `or` operator and the
  raised exceptions. main.py declares its own `SmscApiError` class
  (main.py:18-19), distinct from the one smsc_api.py and validators.py import,
  so the model keeps the two apart (`SmscApiError`, `MainSmscApiError`).
- `PyDicts` models Python dicts as insertion-ordered association lists. A dict
  display with `**payload` and `dict.update` both assign the payload's entries in
  order. An existing key keeps its place and a new key is appended, so
  `PyDicts.Update` models both, including the order in which the parameters
  reach the query string.

The network exchange is not modelled. The decoded reply of the gateway is an
input (`response`), and the model states which transport (`asks.post` or
`asks.get`), URL and parameters the request would carry. The default
credentials (the `smsc_login`/`smsc_password` context variables, filled from the
environment) are a `Credentials` parameter. Either default may be `None`.

Payloads and replies are Python dicts, so their keys are distinct. The members
that depend on this say so with `requires IsDict(...)`. Every dict the source can
receive satisfies it.

The docstrings promise an error on a non-200 status or an `error_code` field,
and one could expect missing credentials to be an error. The code has none of
these checks: a `None` default goes into the parameters as is, and only the
`error` field is inspected. The model follows the code.

## Model

| member | source | states |
|---|---|---|
| `PyValues.Or` | smsc_api.py:105-106 | Python's `a or b` is a when a is true and b otherwise, so it is true exactly when one of them is |
| `PyDicts.GetPresent` | smsc_api.py:125 | `d.get(k)` finds a value exactly when k is among the dict's keys |
| `PyDicts.GetAt` | smsc_api.py:125-126 | in a dict, looking up the key of an entry yields that entry's value |
| `PyDicts.SetGet` | main.py:95 | assigning `d[k] = v` stores v under k and leaves every other key's value alone |
| `PyDicts.SetKeys` | main.py:95 | assigning to a present key keeps the key order; assigning to a new key appends it |
| `PyDicts.SetDict` | main.py:95 | assignment keeps the keys distinct |
| `PyDicts.UpdateGet` | main.py:95 | after `d.update(p)` each key of p holds p's value and every other key holds d's |
| `PyDicts.UpdateKeys` | main.py:95 | `d.update(p)` has exactly the keys of d and p, with d's keys first and in their old order |
| `PyDicts.UpdateKeyOrder` | main.py:95 | the keys of `d.update(p)` are d's keys followed by p's keys new to d, each once, in p's order |
| `PyDicts.UpdateDict` | main.py:95 | `d.update(p)` keeps the keys distinct |
| `SmscApi.Resolve` | smsc_api.py:105-106 | a non-empty explicit login or password is used; `None` or `''` falls back to the default, which is used unchecked (even `None`) |
| `SmscApi.TransportFor` | smsc_api.py:108-111 | `POST` goes to `asks.post` and `GET` to `asks.get` |
| `SmscApi.BuildRequest` | smsc_api.py:99-120 | a verb other than exactly `POST`/`GET` is rejected with the verb message; a valid verb with an operation other than `send`/`status` is rejected with the operation message; otherwise the request uses the verb's transport, the URL `https://smsc.ru/sys/<op>.php` and the base parameters updated with the payload |
| `SmscApi.ParamsKeys` | smsc_api.py:114-120 | the parameters hold `login`, `psw`, `fmt`, `charset` and the payload's keys and nothing else, with distinct keys and the four fixed keys first in the literal's order |
| `SmscApi.ParamsValues` | smsc_api.py:114-120 | every payload key carries the payload's value, overriding a fixed key; an unnamed fixed key keeps the login, the password, `3` or `'utf-8'` |
| `SmscApi.Classify` | smsc_api.py:125-128 | a reply with no `error` key is returned unchanged; the call fails exactly when `response.get('error')` is truthy, raising `SmscApiError` with that value; otherwise the reply is returned unchanged |
| `SmscApi.ClassifyEntry` | smsc_api.py:125-126 | for a reply holding the entry `('error', v)`, a truthy v is raised and a falsy v (`''`, `0`, `None`, ...) lets the reply through unchanged |
| `SmscApi.RequestSmsc` | smsc_api.py:99-128 | the verb error comes first and then the operation error; a valid call succeeds exactly when the reply's `error` is falsy, and then it returns the reply itself |
| `SmscApi.RejectionIgnoresReply` | smsc_api.py:99-103 | a rejected call fails the same way whatever the gateway would answer: no request is made |
| `SmscApi.SendExample` | smsc_api.py:79-86 | the docstring's `send` call builds a POST to `https://smsc.ru/sys/send.php` with `login`, `psw`, `fmt=3`, `charset='utf-8'` and `phones`, in that order |
| `SmscApi.ReplyExamples` | smsc_api.py:125-128 | `{'error': 'invalid phone'}` raises with that text; `{'error': '', 'id': 24}` and `{'cnt': 1, 'id': 24}` are returned unchanged |
| `LegacyMain.FormatFills` | main.py:80 | formatting a template whose only braces are one `{}` field replaces that field with the argument and keeps the text around it |
| `LegacyMain.UrlAgrees` | main.py:98 | `'https://smsc.ru/sys/{}.php'.format(op)` equals smsc_api.py's f-string URL |
| `LegacyMain.BuildRequest` | main.py:74-95 | checks the verb first (`!= 'POST' and != 'GET'`) and then the operation, each raising main.py's own `SmscApiError` class with main.py's message; otherwise uses the same transport and URL as smsc_api.py; the parameters are `{login, psw, fmt: 3}` updated in place by the payload, entry by entry |
| `LegacyMain.ParamsAgree` | main.py:90-95 | the parameters equal smsc_api.py's apart from `charset`, present only when the payload adds it; smsc_api.py's are main.py's for a payload starting with `charset='utf-8'` |
| `LegacyMain.RequestSmscAsWritten` | main.py:74-106 | every call raises: a bad verb or operation raises main.py's own `SmscApiError`, a truthy reply `error` raises that class with it, and every other reply raises `AttributeError` from `.json()` on a dict |
| `LegacyMain.RequestSmsc` | main.py:74-104 | with the reply returned, main.py's variant fails exactly when smsc_api.py's fails; for a valid verb and operation it returns the same reply, or raises main.py's own `SmscApiError` (a different class from the one smsc_api.py imports) with the same argument |
| `Validators.CheckTextField` | validators.py:8-13 | the text is rejected exactly when it is empty, with `SmscApiError('Text field cannot be empty')`; any other text is returned unchanged |
| `Validators.CheckTextFieldIdempotent` | validators.py:9-13 | accepted text validates again to the same value |

## Findings

| source | as written | input that shows it | evidently intended | confidence | as-written member | corrected member |
|---|---|---|---|---|---|---|
| main.py:106 | `return response.json()` after `response = response.json()`, so `.json()` is called on a `dict` | `request_smsc('POST', 'send', payload={'phones': '+79123456789'})` with the gateway reply `{'cnt': 1, 'id': 24}`: `AttributeError: 'dict' object has no attribute 'json'` | `return response`, as smsc_api.py:128 does | high; not executed | `LegacyMain.RequestSmscAsWritten` | `LegacyMain.RequestSmsc` |

## Left out

- The HTTP request, its timeout and the `.json()` decoding (smsc_api.py:122-123, main.py:97-102). These are network calls into the `asks` library, so the decoded reply is an input.
- A reply that decodes to something other than a JSON object. `response.get` would fail on it; the model takes the reply as a dict.
- The `@patch('asks.post', substitute_asks_post)` decorator and its mock (smsc_api.py:50-56). This is test scaffolding that replaces the POST transport with a canned reply.
- The click command-line entry points (smsc_api.py:20-47, main.py:22-29), `load_dotenv` and `os.getenv` (smsc_api.py:12-17, main.py:10-15). These are argument and environment input, and the defaults are a parameter instead.
- The per-context behaviour of `ContextVar`. The defaults are read as one process-wide pair.
- The docstring's promise of an error on a non-200 status or an `error_code` field (smsc_api.py:74-76, main.py:49-51). The code does not check either.
- A missing-credentials error: the code has none, and a `None` default is passed on as `None`.
- Pydantic's typing and coercion of the `text` field, and how pydantic reports an exception raised in a validator (validators.py:5-6). This is library behaviour, and `exceptions.py`, which defines `SmscApiError`, is not part of this model.
- The Quart web server (server.py) and the Redis smoke test (test_redis.py). These are I/O and concurrency. The mailing store, status broadcaster and dispatch service of the wider design are not in these source files.
- Floating-point NaN, which Python treats as truthy. `Float` values are reals here.
- Dict keys other than strings. Payload, parameter and reply keys are strings.
