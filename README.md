# APIcaller in Dafny

APIcaller is a PHP base class for building wrappers around REST-like web APIs. An object
holds a base URL, an HTTP method (GET, POST, PUT or DELETE), a response format (none,
json or xml) and a table of default parameters. Its `call(section, params, contentType)`
merges the caller's parameters with the defaults, builds one curl request, records the
URL, the parameters and the raw result as the "last call", and returns the body decoded
according to the format.

The model has three modules:

- `Php` (php.dfy): PHP values and ordered, string-keyed PHP arrays. It has `$a[k] = v`
  (`Put`) and `array_merge` (`Merge`), with their precedence and ordering proved, plus the
  truthiness of strings.
- `Caller` (caller.dfy): the class `ApiCaller`, whose fields and methods mirror the PHP
  object. Each method is proved against a pure function of the object's state (`State`)
  that names its new state and its result or exception. This module also holds request
  building, the format dispatch, the JSON error table, the content-type guard and
  `_getContentType`.
- `Configuration` (configuration.dfy): any sequence of setter calls. It proves the
  invariant they keep and which default a later call merges in.

The foreign functions the class calls are fields of the datatype `Caller.Env`, taken as
given functions and never specified:

- `filter_var(..., FILTER_VALIDATE_URL)`
- `http_build_query`
- `curl_exec`
- `json_decode` together with `json_last_error`
- `json_encode((array) simplexml_load_string(...))`

Exceptions are modelled as values: each setter returns the exception it threw, if any,
and `Call` returns an `Outcome` (`Threw` or `Returned`).

Behaviour the model keeps exactly as the code has it:

- The content-type guard of `call` throws exactly when the content type is falsy. That
  covers the default null, `""` and `"0"`. A truthy but unsupported value such as
  `"yaml"` passes. One might expect the guard to reject unsupported types; the model
  follows the code.
- Parameters are merged with `array_merge(params, defaults)`, so for a non-numeric key a
  default overrides the caller's value. The caller's key still keeps its position.
  Defaults whose keys the caller did not pass are appended after the caller's entries, in
  the defaults' order.
- The merge runs before the method switch. On PHP 8, `array_merge` on a string throws a
  TypeError. On PHP 5 and 7 it warns and returns null, and the call goes on with null
  params. Either way `is_string($params)` at the POST branch is false, so the raw-string
  branch never runs. The model takes `params` to be an array.
- The switch on the method sends every method other than POST, PUT and DELETE down the
  GET path. A GET URL always gets a `?` appended, even when the query string is empty.
- A failed transfer (`curl_exec` returning false) with format json or xml makes
  `_parseJson`/`_parseXml` throw. This happens after the last-call record has been
  written. With format none, the value false is returned as it is.

## Model

| member | source | states |
|---|---|---|
| `Php.Put` | APIcaller.class.php:85-90 | `$a[k] = v`: afterwards k maps to v and every other key keeps its value. An existing key keeps its position, a new key is appended, and distinct keys stay distinct. |
| `Php.Merge` | APIcaller.class.php:167 | `array_merge(a, b)`: the keys are the union of both arrays' keys. On a shared key b's value wins, and any other key keeps the value of the array that has it. a's keys keep their positions at the front. |
| `Php.MergeIsOverwriteThenAppend` | APIcaller.class.php:167 | `array_merge(a, b)` is exactly a's entries in a's order, each taking b's value where b has its key, followed by b's entries whose keys a lacks, in b's order. Proved equal to a definition written independently of `Merge`. |
| `Php.MergeFreshKeysAppends` | APIcaller.class.php:167 | When no default key collides with a caller key, the merged array is the caller's entries followed by the defaults, each in its own order. |
| `Caller.SetDefaultSpec` | APIcaller.class.php:85-90 | `setDefault(k, v)`: the default for k becomes v and every other default is unchanged. Method, URL, format and last call are unchanged. |
| `Caller.ClearDefaultsSpec` | APIcaller.class.php:96-101 | `clearDefaults()`: no default key remains. Every other field is unchanged. |
| `Caller.SetMethodSpec` | APIcaller.class.php:109-117 | `setMethod(m)` stores m if and only if m is GET, POST, PUT or DELETE. Otherwise it throws "Invalid standard communication." and leaves the method as it was. No other field changes. |
| `Caller.SetUrlSpec` | APIcaller.class.php:125-133 | `setUrl(u)` stores u if and only if the URL filter accepts it. Otherwise it throws "Invalid URL" and leaves the URL as it was. No other field changes, and a URL that is empty or accepted stays so. |
| `Caller.SetFormatSpec` | APIcaller.class.php:141-149 | `setFormat(f)` stores f if and only if f is none, json or xml. Otherwise it throws the "doesn't support 'f' format." exception and leaves the format as it was. No other field changes. |
| `Caller.RejectsContentType` | APIcaller.class.php:164-165 | The guard as written rejects a content type exactly when it is falsy (null, "" or "0"). A truthy unsupported value such as "yaml" is let through. |
| `Caller.RequestFor` | APIcaller.class.php:174-208 | By method: GET puts the query string on the URL after "?" and sends no body. POST, PUT and DELETE use base+section as the URL and send the query string as the body. Only POST sets the POST flag, and only PUT and DELETE set a custom verb, equal to the method. |
| `Caller.JsonErrorMessage` | APIcaller.class.php:249-264 | The fixed message for a non-zero `json_last_error` code: one message each for depth, state mismatch, control character, syntax and UTF-8. Every other code, and only those, gives "Unknown error on JSON file". |
| `Caller.JsonErrorMessagesDistinct` | APIcaller.class.php:252-261 | The five known error codes have five different messages, so the message identifies the code. |
| `Caller.ParseJson` | APIcaller.class.php:242-265 | `_parseJson` throws "Invalid string value" if and only if it is given false rather than a string. Otherwise it returns the decoded value when the error code is none, and else the single-key array {error: message for the code}. |
| `Caller.ParseXml` | APIcaller.class.php:272-278 | `_parseXml` throws if and only if it is given false or the JSON re-encoding of the document fails. Otherwise it is `_parseJson` of that re-encoding. |
| `Caller.Dispatch` | APIcaller.class.php:222-234 | Format none (or any other non-json, non-xml value) returns the raw result unchanged. json goes to `_parseJson` and xml to `_parseXml`. Only a failed transfer, or the XML path, can throw. |
| `Caller.CallSpec` | APIcaller.class.php:159-235 | A falsy URL throws "You need to set a URL!", and then a rejected content type throws its message; both leave every field unchanged. Otherwise the last call becomes exactly {url: base+section, params: merged, data: transport result} and the result is the format dispatch of that raw result. Configuration never changes. A throw after a state change can only be the parser's "Invalid string value". For every call past the guards, the recorded parameters take the default's value for each default key and the caller's value for every other key. They are, in order, the caller's entries overwritten by the defaults, then the defaults with new keys. |
| `Caller.CallForgetsPreviousRecord` | APIcaller.class.php:170 | The record and result of a call do not depend on the previous record: it is overwritten, not accumulated. |
| `Caller.DefaultWinsOnCollision` | APIcaller.class.php:167-170 | With default a=1 and call parameters a=2, b=3, the recorded parameters are exactly [a=1, b=3], in that order. |
| `Caller.ContentTypeHeaderAsWritten` | APIcaller.class.php:294-308 | `_getContentType` as written gives null for xml and json and an empty list for everything else. |
| `Caller.ContentTypeHeader` | APIcaller.class.php:294-308 | `_getContentType` as intended: exactly one header for xml and for json, naming text/xml and application/json, and none for other types. |
| `Caller.ContentTypeHeaderIsLost` | APIcaller.class.php:296-302 | For both supported types, the header the function builds never reaches its caller. |
| `Caller.ApiCaller.constructor` | APIcaller.class.php:37-61 | A new object has method GET, format json, an empty URL, no defaults and no last call, and it satisfies the invariant. |
| `Caller.ApiCaller.SetDefault` | APIcaller.class.php:85-90 | Updates the fields exactly as `SetDefaultSpec` says and keeps the invariant. |
| `Caller.ApiCaller.ClearDefaults` | APIcaller.class.php:96-101 | Updates the fields exactly as `ClearDefaultsSpec` says and keeps the invariant. |
| `Caller.ApiCaller.SetMethod` | APIcaller.class.php:109-117 | New fields and thrown exception are exactly those of `SetMethodSpec`, and the invariant is kept. |
| `Caller.ApiCaller.SetUrl` | APIcaller.class.php:125-133 | New fields and thrown exception are exactly those of `SetUrlSpec`, and the invariant is kept. |
| `Caller.ApiCaller.SetFormat` | APIcaller.class.php:141-149 | New fields and thrown exception are exactly those of `SetFormatSpec`, and the invariant is kept. |
| `Caller.ApiCaller.Call` | APIcaller.class.php:159-235 | Writes the last-call record in two steps, first URL and params, then data. The final fields and the outcome are exactly those of `CallSpec`. On a valid object past both guards, every default key is recorded with the default's value and every other key with the caller's value. |
| `Caller.ApiCaller.GetLastCall` | APIcaller.class.php:284-287 | Returns the last-call record and changes nothing. |
| `Configuration.ApplyKeepsWellformed` | APIcaller.class.php:85-149 | Each setter keeps the invariant: method in the four, format in the three, distinct default keys, URL empty or accepted. |
| `Configuration.RunKeepsWellformed` | APIcaller.class.php:85-149 | Any sequence of setter calls keeps that invariant. |
| `Configuration.ReachableStatesAreWellformed` | APIcaller.class.php:37-149 | Starting from the initial fields, every sequence of setter calls leaves a state satisfying the invariant. |
| `Configuration.RunKeepsLastCall` | APIcaller.class.php:85-149 | No sequence of setter calls changes the last-call record. |
| `Configuration.DefaultAfterRun` | APIcaller.class.php:85-101 | After any setter calls, the default for a key is the value of the last `setDefault` of that key, unless a `clearDefaults` came after it. |

## Left out

- The curl transport and its options are replaced by the function `Env.exec` from the request's URL, POST flag, custom verb and body to a body string or false. Left out are the TLS verification flags, CURLOPT_MUTE, the 5-second connect timeout and RETURNTRANSFER.
- The `try`/`catch` around the exchange is not modelled. The curl functions do not throw, so its `return null` cannot be reached.
- The raw-string `$params` POST path is not modelled as reachable. On PHP 8, `array_merge` on a string throws a TypeError. On PHP 5 and 7 it warns and returns null, and the call goes on with null params. Either way `is_string($params)` is false, so the raw-string branch never runs. The model takes `params` to be an array.
- The null-params case of PHP 5 and 7 is not modelled. In that case `_lastCall['params']` is recorded as null, and the request goes out with `http_build_query(null)`, without even the defaults. The Content-Type header list and the relaxed TLS settings of the raw-string path are not modelled either.
- `json_decode`, `json_encode`, `simplexml_load_string` and the `(array)` cast are foreign codecs, taken as given functions.
- `filter_var` is taken as a given predicate. URL syntax is not modelled.
- `http_build_query` is taken as a given function of the ordered array; percent-encoding is not modelled.
- The singleton `getInstance` and the setters returning `self::$_me` for chaining are not modelled. The model's setters return only the exception they threw.
- `array_merge`'s renumbering of integer keys is not modelled. PHP stores a decimal-integer string key such as `"5"` as an integer key, and `array_merge` renumbers integer keys. For such keys no default overrides, and both the caller's value and the default are sent. The model treats every key as a string.
- PHP's loose comparison on non-string arguments is not modelled: `setMethod`, `setFormat` and `call`'s content type take strings (or null), as the class documents.
- Floating-point values are carried as Dafny `real`; no float semantics are modelled.

## Findings

| source | as written | input that shows it | evidently intended | confidence | as-written member | corrected member |
|---|---|---|---|---|---|---|
| APIcaller.class.php:296-302 | the xml and json arms evaluate `array('Content-Type: ...')` and `break` without `return`, so the function yields null | `_getContentType('json')` yields null | return `array('Content-Type: application/json')` for json and `array('Content-Type: text/xml')` for xml | high; not executed | `Caller.ContentTypeHeaderAsWritten` (shown by `Caller.ContentTypeHeaderIsLost`) | `Caller.ContentTypeHeader` |
