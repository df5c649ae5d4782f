# MaoyanAPI request construction, modelled in Dafny

This project models the request-construction core of the `MaoyanAPI` client
(`maoyan.py`): a credentialed HTTP client for a ticketing platform's internal
API. It covers:

- the identity tables `__init__` derives once from the loaded configuration:
  the eleven common query parameters, the fixed header template and the
  eight cookies;
- `_generate_mtgsig`, the compact JSON of the configured signature payload;
- `_request`: the parameter overlay, the token injection, the signed header
  copy, the case-insensitive choice of GET or POST, and how every outcome is
  reported (a response, `None`, or an exception that escapes);
- `get_project_detail`: the fixed descriptor it sends and the gate on what it
  returns.

Modules:

- `Wrappers` (`wrappers.dfy`): `Option`, Python's `None` or a value.
- `Text` (`text.dfy`): decimal numerals (`str(n)`), hexadecimal digits and
  `sep.join`.
- `Json` (`json.dfy`): JSON values as `json.load` gives them, and
  `json.dumps(v, separators=(',', ':'))` with the default `ensure_ascii`.
- `PyText` (`pytext.dfy`): Python's `str()`, `repr()` and `str.upper()` on
  those values.
- `Maoyan` (`maoyan.dfy`): the tables, the per-call assembly, and the class
  `MaoyanApi`. The class keeps its tables in `const` fields, so no call can
  change them. `Request` and `GetProjectDetail` are methods with the source's
  step-by-step bodies. Each is proved equal to a function of the client and
  its arguments (`Assemble`, `Dispatch`, `DetailFrom`), and lemmas state what
  those functions send.

The network and the body parser are parameters. `transport` stands for
`requests.Session` sending one wire request and returning a response or the
exception it raised. `parseJson` stands for `response.json()`.

What `maoyan.py` does, as modelled:

- The header template has thirteen entries.
- A missing `mtgsig` is not detected at construction. `_generate_mtgsig`
  raises `KeyError` at maoyan.py:104, outside the `try` block, so the
  exception escapes `_request` (modelled as `Raised("mtgsig")`).
- `_request` returns the response or `None`. Every exception inside the `try`
  becomes `None`, and a completed exchange is returned whatever its status.
- `get_project_detail` returns `None` both for a failed call and for a body
  that does not parse.
- The client's cookie table never changes. Cookies that the session's jar
  collects from `Set-Cookie` are not modelled (see Left out).

## Model

| member | source | states |
|---|---|---|
| Maoyan.InitKeyError | maoyan.py:19-40 | No error exactly when the configuration has all thirteen keys `__init__` reads. Otherwise the error names a missing key, and every key read before it is present: the `KeyError` Python raises first. |
| Maoyan.MaoyanApi.constructor | maoyan.py:13-70 | From a configuration with every key `__init__` reads, builds the client whose tables are the ones derived from that configuration (`Valid`). |
| Maoyan.CommonParams | maoyan.py:29-41 | The common-parameter table has exactly the eleven common keys, each holding the configured value. |
| Maoyan.CommonKeysShape | maoyan.py:29-41 | There are eleven common keys, and `token` is not one of them. |
| Maoyan.HeaderTemplateShape | maoyan.py:44-58 | The header template has thirteen headers, and includes neither `mtgsig` nor `Content-Type`. |
| Maoyan.Cookies | maoyan.py:61-70 | The cookies are the five `_utm_*` constants with their values, plus `cityid`, `uuid` and `token`. `uuid` and `token` are as configured. `cityid` is `str(cityId)`, which for a number is its canonical decimal numeral and reads back as that number. |
| Maoyan.CookieCount | maoyan.py:61-70 | The cookie table has eight entries. |
| PyText.PyStr | maoyan.py:66 | `str(v)` of a string is the string itself. For an integer it is the canonical numeral that denotes the integer: no leading zero, and a minus sign exactly when the integer is negative. |
| PyText.PyRepr | maoyan.py:66 | `repr(v)` of a non-string value (what `str` gives for it) is non-empty. It starts with a quote exactly for a string, with `[` exactly for a list, and with `{` exactly for a dict. |
| Text.IntToDecimal | maoyan.py:66 | `str(i)` is a canonical numeral whose value is `i`: no leading zero, and a minus sign exactly when `i` is negative. It is made only of digits and a minus sign. |
| Text.CanonicalNumeralUnique | maoyan.py:66 | Every canonical numeral is the one `str` writes for its value, so `str(int(s)) == s`. |
| Text.DecimalRoundTrip | maoyan.py:66 | Reading back the digits of a natural number gives the number. |
| Text.DecimalCanonical | maoyan.py:66 | Writing the value of a digit string with no leading zero gives back the digit string. |
| Maoyan.GenerateMtgsig | maoyan.py:83-88 | There is a signature exactly when the configuration has `mtgsig`. The signature is printable ASCII, and it has exactly as many spaces as the payload's strings have together. |
| Json.Dumps | maoyan.py:88 | The compact JSON text of a value is non-empty. It starts with `"` exactly for a string, with `[` exactly for an array, and with `{` exactly for an object. |
| Json.DumpsShape | maoyan.py:88 | The compact JSON text of any value is printable ASCII, so it has no tab or line break. It has exactly as many spaces as the value's strings and field names have together. Every space therefore comes from a string, and none stands between tokens. |
| Json.EscapeShape | maoyan.py:88 | An escaped string is printable ASCII and has exactly the spaces of the original. |
| Json.EscapeCharShape | maoyan.py:88 | One escaped character is printable ASCII, with one space for a space and none otherwise. |
| Json.QuoteShape | maoyan.py:88 | A JSON string literal is printable ASCII and has exactly the spaces of its string. |
| Json.FieldShape | maoyan.py:88 | One `"name":value` field is printable, with the spaces of its name plus those of its value. |
| Json.ArrayShape | maoyan.py:88 | Given each item's text is printable with its item's spaces, the array's text is printable with exactly the items' spaces. |
| Json.ObjectShape | maoyan.py:88 | Given each value's text is printable with its value's spaces, the object's text is printable with exactly the spaces of its names and values. |
| Json.CommaJoinShape | maoyan.py:88 | Printable parts joined with commas stay printable, and have exactly the spaces of the parts. |
| Text.JoinChars | maoyan.py:88 | A character occurs in `sep.join(parts)` exactly when it occurs in a part, or in the separator when there are at least two parts. |
| Text.JoinOccurrences | maoyan.py:88 | Joining with a separator that lacks a character adds no occurrence of it. |
| Maoyan.MergeParams | maoyan.py:93-100 | The merged parameters have every common key, every endpoint key, and `token` when it is injected. An injected token wins, then the endpoint's value, then the common one. |
| Maoyan.MergeWithoutParams | maoyan.py:93-96 | With no endpoint parameters and no token, the merge is exactly the common table. |
| Maoyan.TokenInjection | maoyan.py:99-100 | An injected token wins over one the endpoint passes. Without injection, `token` is sent only when the endpoint passes it. |
| Maoyan.ConfiguredMerge | maoyan.py:93-100 | Merged over the configured common table: the keys are the common keys, the endpoint keys and `token` when injected. Each common key the endpoint leaves alone keeps its configured value. Each endpoint key keeps its value unless the injected token overrides it. |
| Maoyan.RequestHeaders | maoyan.py:103-117 | The outgoing headers are the template's, plus `mtgsig` holding the signature, plus the JSON `Content-Type` on POST only. Every other template header is unchanged. |
| Maoyan.SignedTemplate | maoyan.py:103-117 | For a template without `mtgsig` and `Content-Type`: every template header is kept, `mtgsig` is the signature, and `Content-Type` is present exactly on POST. The result has one header more than the template on GET and two more on POST. |
| Maoyan.SelectMethod | maoyan.py:108-127 | GET is chosen exactly for the spellings of IsGetSpelling, and POST exactly for those of IsPostSpelling. Every other method name is refused. |
| Maoyan.GetSpellings | maoyan.py:108 | `method.upper() == "GET"` holds exactly when the name is "get" with each letter in either case. |
| Maoyan.PostSpellings | maoyan.py:116 | `method.upper() == "POST"` holds exactly for "post" with each letter in either case, with the S also allowed as U+017F, or with "st" written as the single ligature U+FB05 or U+FB06. |
| Maoyan.PostSpellingsOnly | maoyan.py:116 | Only those spellings upper-case to "POST". |
| Maoyan.PostSpellingsAll | maoyan.py:116 | Every one of those spellings upper-cases to "POST". |
| Maoyan.MethodCaseInsensitive | maoyan.py:108-116 | A method name and its upper case select the same method. |
| PyText.Upper | maoyan.py:108 | Upper-casing never shortens a string, and gives the empty string only for the empty string. |
| PyText.UpperChar | maoyan.py:108 | Every character upper-cases to at least one character. |
| PyText.UpperIdempotent | maoyan.py:108 | Upper-casing twice is the same as upper-casing once. |
| Maoyan.Dispatch | maoyan.py:107-142 | An exception escapes exactly when the request is missing a key, and it names that key. A response comes back exactly when a request was assembled and the transport completed it, and it is the transport's own response. An unsupported method and a transport failure both give `None`. |
| Maoyan.MaoyanApi.Assemble | maoyan.py:90-127 | A call fails with `KeyError("mtgsig")` exactly when `mtgsig` is not configured. It is refused exactly when `mtgsig` is configured but the method is neither GET nor POST. Otherwise the request uses the selected method. |
| Maoyan.AssembledRequest | maoyan.py:90-125 | An assembled request carries the chosen method, the URL, the merged parameters and the signed client headers. It has the client's cookies, the body only on POST, and a 10-second timeout. |
| Maoyan.MaoyanApi.Request | maoyan.py:90-142 | `_request` returns the dispatch of the assembled request. It raises exactly when `mtgsig` is not configured, and returns `None` for an unsupported method. It changes no field of the client. |
| Maoyan.SentParams | maoyan.py:90-120 | A constructed client sends every common key as configured unless the endpoint overrides it, and every endpoint parameter. On a call that needs it, the token sent is the configured one. |
| Maoyan.SentHeaders | maoyan.py:103-125 | A constructed client sends the whole template unchanged. `mtgsig` holds the compact JSON of the configured payload. `Content-Type` is sent exactly on POST. There are fourteen headers on GET and fifteen on POST, and the cookies are the derived table. |
| Maoyan.DetailReady | maoyan.py:147-153 | With the signature configured, `get_project_detail` always reaches the transport, with a GET. |
| Maoyan.DetailRequest | maoyan.py:147-153 | The detail request goes to `str(base_url)` followed by `/my/odea/project/detail`, as a GET with no body. |
| Maoyan.DetailHeaders | maoyan.py:103-115 | The detail request carries the signed template: `mtgsig` is the payload's JSON, there is no `Content-Type`, and there are fourteen headers. |
| Maoyan.DetailMergeKeys | maoyan.py:148-153 | The detail parameters are the common keys plus `projectId`, `buyInstructionType`, `detailType` and `token`. |
| Maoyan.DetailMergeValues | maoyan.py:148-153 | The detail parameters hold the project id, `buyInstructionType` 1, `detailType` 1 and the configured token. |
| Maoyan.DetailMergeCommon | maoyan.py:148-153 | Every common parameter of the detail request keeps its configured value. |
| Maoyan.DetailParamsSent | maoyan.py:147-153 | The parameters the client sends for a project: the common keys as configured, the project id, both instruction parameters set to 1, and the configured token. |
| Maoyan.DetailFrom | maoyan.py:155-163 | Data comes back exactly when a response arrived with status 200 and its body parsed, and the data is the parsed body. An exception from `_request` passes through with its key. |
| Maoyan.MaoyanApi.GetProjectDetail | maoyan.py:144-163 | `get_project_detail` sends the fixed GET descriptor with the token and gates the outcome as `DetailFrom` says. The project id defaults to 415604 when the caller omits it. |

## Left out

- `_load_config` (maoyan.py:72-81) is file I/O. The client is built from an already-loaded configuration map.
- `requests.Session` (maoyan.py:22, 109-125) is the `transport` parameter: a deterministic function from a wire request to a completed exchange or a failure. The model does not cover URL encoding of parameters, dropping of `None`-valued parameters, the session's default headers, its cookie jar (the cookies it collects from `Set-Cookie` and sends on later calls), the JSON encoding of a POST body, or how the timeout is enforced. The timeout is a field of the wire request.
- `response.json()` (maoyan.py:157) is the `parseJson` parameter.
- All `print` output (maoyan.py:80, 130-135, 141, 146, 158-159, 162) is logging, including the filter that shows the `Token`, `ServerTime` and `M-TraceId` response headers. An exception raised while printing is not modelled.
- `main` (maoyan.py:166-193) is a demo driver.
- `params=None` and `params={}` are both the empty map, since `_request` treats them alike. `data=None` is `None`.
- Json.Value allows an object with two fields of the same name. `json.load` never produces one, and Python keeps only the last value where `Dumps` would write both fields. The model does not exclude such objects.
- Json.Value has no floating-point numbers, so the model assumes every number in the configuration is an integer. Floats would need Python's float formatting.
- Maoyan.DetailFrom and Maoyan.MaoyanApi.GetProjectDetail: the same `Value` type carries the body that `parseJson` (`response.json()`, maoyan.py:157) returns. A response body holding a float cannot be represented, so for such a body the model's `parseJson` can only return `None` or some other value, and `get_project_detail`'s data (maoyan.py:160) is not modelled for it.
- Json.Dumps writes a character outside the Basic Multilingual Plane as a surrogate pair. Dafny characters are Unicode scalar values, so lone surrogates in Python strings are not modelled.
- PyText.PyRepr escapes only ASCII control characters. Python's `repr` also escapes non-printable non-ASCII characters as `\x`, `\u` or `\U`. This matters only for `str()` of a non-string `cityId` or `base_url` that holds such characters.
- PyText.UpperChar maps only the characters whose upper case is ASCII. Every other character is kept, so the comparisons with "GET" and "POST" come out as in Python. `Upper` is not Python's full `str.upper`.
- Maoyan.MaoyanApi.Request takes the method name as a string. The `AttributeError` that a non-string method would raise inside the `try` is not modelled.
- Maoyan.SentParams, Maoyan.SentHeaders, Maoyan.DetailRequest, Maoyan.DetailHeaders and Maoyan.DetailParamsSent require only the parts of `Valid` they use (`ParamsConfigured`, or the header and cookie tables). Every constructed client meets these requirements.
