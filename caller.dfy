/**
 * The APIcaller base class: its configuration (base URL, HTTP method,
 * response format, default parameters), the `call` routine that builds one
 * request, hands it to the transport and dispatches the body on the
 * configured format, and the record of the last call.
 *
 * The foreign pieces the class leans on are the fields of `Env`: the URL
 * filter, the query-string builder, the HTTP transport and the JSON and XML
 * codecs. They are taken as given functions and never specified.
 */
module Caller {
  import opened Php

  const Methods: set<string> := {"GET", "POST", "PUT", "DELETE"}
  const Formats: set<string> := {"none", "json", "xml"}
  const SupportedContentTypes: set<string> := {"json", "xml"}

  // The messages of the exceptions the class throws.
  const InvalidMethodMessage := "Invalid standard communication."
  const InvalidUrlMessage := "Invalid URL"
  const MissingUrlMessage := "You need to set a URL!"
  const InvalidStringMessage := "Invalid string value"

  function UnsupportedFormatMessage(format: string): string
  {
    "APIcaller doesn't support '" + format + "' format."
  }

  /** `sprintf("%s", null)` prints nothing, so a missing content type shows as `""`. */
  function UnsupportedContentTypeMessage(contentType: Option<string>): string
  {
    "Content type not supported: \"" + (if contentType.Some? then contentType.value else "") + "\"."
  }

  // The codes `json_last_error` reports, as PHP numbers them.
  const JsonErrorNone := 0
  const JsonErrorDepth := 1
  const JsonErrorStateMismatch := 2
  const JsonErrorCtrlChar := 3
  const JsonErrorSyntax := 4
  const JsonErrorUtf8 := 5

  const UnknownJsonErrorMessage := "Unknown error on JSON file"

  datatype Exception = Exception(message: string)

  /** What `curl_exec` hands back: the response body, or `false` when the transfer failed. */
  datatype Body = Text(s: string) | False
  {
    function ToValue(): Value
    {
      match this
      case Text(s) => Str(s)
      case False => Bool(false)
    }
  }

  /**
   * The curl handle's request-shaping options: the URL, whether it is a
   * POST, the custom verb, and the form-encoded fields sent as the body.
   */
  datatype Request = Request(url: string, post: bool, customVerb: Option<string>, fields: Option<string>)

  /** `json_decode(s, true)` together with the `json_last_error()` it leaves behind. */
  datatype Decoded = Decoded(value: Value, errorCode: int)

  datatype Env = Env(
    validUrl: string -> bool,        // filter_var(url, FILTER_VALIDATE_URL) is truthy
    buildQuery: Entries -> string,   // http_build_query
    exec: Request -> Body,           // curl_exec
    jsonDecode: string -> Decoded,   // json_decode and json_last_error
    xmlToJson: string -> Body)       // json_encode((array) simplexml_load_string(s))

  /** `_lastCall`: empty until the first call, then its URL, merged parameters and raw result. */
  datatype CallRecord = NoCall | Record(url: string, params: Entries, data: Option<Body>)

  /** The object's fields. */
  datatype State = State(
    defaultParams: Entries,
    apiUrl: string,
    httpMethod: string,
    lastCall: CallRecord,
    format: string)

  /** The fields' initial values: GET, json, no URL, no defaults, no call yet. */
  const Initial := State([], "", "GET", NoCall, "json")

  /** The invariant the setters keep: a supported method and format, and a PHP array of defaults. */
  predicate ConfigValid(s: State)
  {
    s.httpMethod in Methods && s.format in Formats && DistinctKeys(s.defaultParams)
  }

  /** ConfigValid, plus: the URL is the initial empty one or passed the URL filter. */
  predicate Wellformed(s: State, validUrl: string -> bool)
  {
    ConfigValid(s) && (s.apiUrl == "" || validUrl(s.apiUrl))
  }

  /** A setter's new state, and the exception it threw if any. */
  datatype Step = Step(state: State, thrown: Option<Exception>)

  /** `call`'s new state and what it returned or threw. */
  datatype CallStep = CallStep(state: State, out: Outcome)

  datatype Outcome = Threw(e: Exception) | Returned(v: Value)

  // ---------------------------------------------------------------------
  // Setters

  function SetDefaultSpec(s: State, param: string, value: Value): (r: State)
    ensures Get(r.defaultParams, param) == Some(value)
    ensures forall k :: k != param ==> Get(r.defaultParams, k) == Get(s.defaultParams, k)
    ensures r.(defaultParams := s.defaultParams) == s
    ensures ConfigValid(s) ==> ConfigValid(r)
  {
    s.(defaultParams := Put(s.defaultParams, param, value))
  }

  function ClearDefaultsSpec(s: State): (r: State)
    ensures forall k :: !Has(r.defaultParams, k)
    ensures r.(defaultParams := s.defaultParams) == s
    ensures ConfigValid(s) ==> ConfigValid(r)
  {
    s.(defaultParams := [])
  }

  function SetMethodSpec(s: State, m: string): (r: Step)
    ensures r.thrown == None <==> m in Methods
    ensures r.thrown != None ==> r.thrown == Some(Exception(InvalidMethodMessage))
    ensures r.state.httpMethod == if m in Methods then m else s.httpMethod
    ensures r.state.(httpMethod := s.httpMethod) == s
    ensures ConfigValid(s) ==> ConfigValid(r.state)
  {
    if m in Methods then Step(s.(httpMethod := m), None)
    else Step(s, Some(Exception(InvalidMethodMessage)))
  }

  function SetUrlSpec(s: State, url: string, validUrl: string -> bool): (r: Step)
    ensures r.thrown == None <==> validUrl(url)
    ensures r.thrown != None ==> r.thrown == Some(Exception(InvalidUrlMessage))
    ensures r.state.apiUrl == if validUrl(url) then url else s.apiUrl
    ensures r.state.(apiUrl := s.apiUrl) == s
    ensures Wellformed(s, validUrl) ==> Wellformed(r.state, validUrl)
  {
    if !validUrl(url) then Step(s, Some(Exception(InvalidUrlMessage)))
    else Step(s.(apiUrl := url), None)
  }

  function SetFormatSpec(s: State, format: string): (r: Step)
    ensures r.thrown == None <==> format in Formats
    ensures r.thrown != None ==> r.thrown == Some(Exception(UnsupportedFormatMessage(format)))
    ensures r.state.format == if format in Formats then format else s.format
    ensures r.state.(format := s.format) == s
    ensures ConfigValid(s) ==> ConfigValid(r.state)
  {
    if format !in Formats then Step(s, Some(Exception(UnsupportedFormatMessage(format))))
    else Step(s.(format := format), None)
  }

  // ---------------------------------------------------------------------
  // call

  /**
   * The content-type guard of `call`, as written: it rejects a content type
   * that is falsy and not json or xml. Its second half never decides
   * anything, so it rejects exactly the falsy ones (null, "" and "0") and
   * lets every other string through, supported or not.
   */
  function RejectsContentType(contentType: Option<string>): (rejected: bool)
    ensures rejected <==> contentType.None? || FalsyString(contentType.value)
    ensures contentType == Some("yaml") ==> !rejected
  {
    (contentType.None? || FalsyString(contentType.value)) &&
    !(contentType.Some? && contentType.value in SupportedContentTypes)
  }

  /**
   * The request `call` hands to curl for the merged parameters: GET sends
   * them as the URL's query string, POST, PUT and DELETE as the
   * form-encoded body; PUT and DELETE set a custom verb.
   */
  function RequestFor(httpMethod: string, target: string, params: Entries, buildQuery: Entries -> string): (r: Request)
    ensures r.post <==> httpMethod == "POST"
    ensures r.customVerb != None <==> httpMethod in {"PUT", "DELETE"}
    ensures r.customVerb != None ==> r.customVerb == Some(httpMethod)
    ensures r.fields == None <==> httpMethod !in {"POST", "PUT", "DELETE"}
    ensures r.fields != None ==> r.url == target && r.fields == Some(buildQuery(params))
    ensures r.fields == None ==> r.url == target + "?" + buildQuery(params)
  {
    match httpMethod
    case "POST" => Request(target, true, None, Some(buildQuery(params)))
    case "PUT" => Request(target, false, Some("PUT"), Some(buildQuery(params)))
    case "DELETE" => Request(target, false, Some("DELETE"), Some(buildQuery(params)))
    case _ => Request(target + "?" + buildQuery(params), false, None, None)
  }

  /** `_parseJson`'s table from a `json_last_error` code other than none to its message. */
  function JsonErrorMessage(code: int): (msg: string)
    requires code != JsonErrorNone
    ensures msg == UnknownJsonErrorMessage <==> !(JsonErrorDepth <= code <= JsonErrorUtf8)
  {
    if code == JsonErrorDepth then "Maximum stack depth exceeded"
    else if code == JsonErrorStateMismatch then "Underflow or the modes mismatch"
    else if code == JsonErrorCtrlChar then "Unexpected control character found"
    else if code == JsonErrorSyntax then "Syntax error, malformed JSON"
    else if code == JsonErrorUtf8 then "Malformed UTF-8 characters, possibly incorrectly encoded"
    else UnknownJsonErrorMessage
  }

  /** Each known error code has a message of its own. */
  lemma JsonErrorMessagesDistinct(c1: int, c2: int)
    requires c1 != JsonErrorNone && c2 != JsonErrorNone
    requires JsonErrorDepth <= c1 <= JsonErrorUtf8
    requires JsonErrorMessage(c1) == JsonErrorMessage(c2)
    ensures c1 == c2
  {
  }

  /** The single-key array `array('error' => msg)`. */
  function ErrorDescriptor(msg: string): Value
  {
    Arr([("error", Str(msg))])
  }

  function ParseJson(body: Body, decode: string -> Decoded): (r: Outcome)
    ensures r.Threw? <==> body.False?
    ensures body.False? ==> r == Threw(Exception(InvalidStringMessage))
    ensures body.Text? && decode(body.s).errorCode == JsonErrorNone ==>
              r == Returned(decode(body.s).value)
    ensures body.Text? && decode(body.s).errorCode != JsonErrorNone ==>
              r == Returned(ErrorDescriptor(JsonErrorMessage(decode(body.s).errorCode)))
  {
    match body
    case False => Threw(Exception(InvalidStringMessage))
    case Text(s) =>
      var d := decode(s);
      if d.errorCode == JsonErrorNone then Returned(d.value)
      else Returned(ErrorDescriptor(JsonErrorMessage(d.errorCode)))
  }

  /** `_parseXml`: the document is re-encoded as JSON and that text goes through `_parseJson`. */
  function ParseXml(body: Body, env: Env): (r: Outcome)
    ensures r.Threw? <==> body.False? || env.xmlToJson(body.s).False?
    ensures r.Threw? ==> r == Threw(Exception(InvalidStringMessage))
    ensures body.Text? ==> r == ParseJson(env.xmlToJson(body.s), env.jsonDecode)
  {
    match body
    case False => Threw(Exception(InvalidStringMessage))
    case Text(s) => ParseJson(env.xmlToJson(s), env.jsonDecode)
  }

  /** The result of `call`, from the transport's raw result and the configured format. */
  function Dispatch(format: string, raw: Body, env: Env): (r: Outcome)
    ensures format !in {"json", "xml"} ==> r == Returned(raw.ToValue())
    ensures format == "json" ==> r == ParseJson(raw, env.jsonDecode)
    ensures format == "xml" ==> r == ParseXml(raw, env)
    ensures r.Threw? ==> raw.False? || format == "xml"
  {
    match format
    case "json" => ParseJson(raw, env.jsonDecode)
    case "xml" => ParseXml(raw, env)
    case _ => Returned(raw.ToValue())
  }

  /**
   * `call(section, params, contentType)`: both guards come before any
   * change; otherwise the record of the last call is overwritten with the
   * URL, the merged parameters and the transport's result, and nothing
   * else in the configuration changes.
   */
  function CallSpec(s: State, section: string, params: Entries, contentType: Option<string>, env: Env): (r: CallStep)
    ensures r.state.(lastCall := s.lastCall) == s
    ensures FalsyString(s.apiUrl) ==> r == CallStep(s, Threw(Exception(MissingUrlMessage)))
    ensures !FalsyString(s.apiUrl) && RejectsContentType(contentType) ==>
              r == CallStep(s, Threw(Exception(UnsupportedContentTypeMessage(contentType))))
    ensures r.out.Threw? && r.state != s ==>
              r.out == Threw(Exception(InvalidStringMessage)) && r.state.lastCall.Record?
    ensures !FalsyString(s.apiUrl) && !RejectsContentType(contentType) ==>
              var merged := Merge(params, s.defaultParams);
              var raw := env.exec(RequestFor(s.httpMethod, s.apiUrl + section, merged, env.buildQuery));
              r.state.lastCall == Record(s.apiUrl + section, merged, Some(raw)) &&
              r.out == Dispatch(s.format, raw, env)
    ensures ConfigValid(s) && !FalsyString(s.apiUrl) && !RejectsContentType(contentType) ==>
              r.state.lastCall.Record? &&
              forall k :: Get(r.state.lastCall.params, k) ==
                          if Has(s.defaultParams, k) then Get(s.defaultParams, k) else Get(params, k)
    ensures ConfigValid(s) && DistinctKeys(params) && !FalsyString(s.apiUrl) && !RejectsContentType(contentType) ==>
              r.state.lastCall.Record? &&
              r.state.lastCall.params == Overwritten(params, s.defaultParams) + FreshEntries(params, s.defaultParams)
  {
    if FalsyString(s.apiUrl) then
      CallStep(s, Threw(Exception(MissingUrlMessage)))
    else if RejectsContentType(contentType) then
      CallStep(s, Threw(Exception(UnsupportedContentTypeMessage(contentType))))
    else
      var merged := Merge(params, s.defaultParams);
      var target := s.apiUrl + section;
      assert ConfigValid(s) && DistinctKeys(params) ==>
               merged == Overwritten(params, s.defaultParams) + FreshEntries(params, s.defaultParams) by {
        if ConfigValid(s) && DistinctKeys(params) {
          MergeIsOverwriteThenAppend(params, s.defaultParams);
        }
      }
      var raw := env.exec(RequestFor(s.httpMethod, target, merged, env.buildQuery));
      CallStep(s.(lastCall := Record(target, merged, Some(raw))), Dispatch(s.format, raw, env))
  }

  /**
   * The record a call leaves does not depend on the one before it: two
   * objects configured alike end up with the same record and result.
   */
  lemma CallForgetsPreviousRecord(s: State, t: State, section: string, params: Entries, contentType: Option<string>, env: Env)
    requires t.(lastCall := s.lastCall) == s
    requires !FalsyString(s.apiUrl) && !RejectsContentType(contentType)
    ensures CallSpec(s, section, params, contentType, env).state.lastCall ==
            CallSpec(t, section, params, contentType, env).state.lastCall
    ensures CallSpec(s, section, params, contentType, env).out ==
            CallSpec(t, section, params, contentType, env).out
  {
  }

  /**
   * With default `a = 1` and call parameters `a = 2, b = 3`, the call sends
   * and records `a = 1, b = 3`, in that order: the default wins and the
   * caller's key keeps its place.
   */
  lemma DefaultWinsOnCollision(s: State, section: string, contentType: Option<string>, env: Env)
    requires s.defaultParams == [("a", Int(1))]
    requires !FalsyString(s.apiUrl) && !RejectsContentType(contentType)
    ensures CallSpec(s, section, [("a", Int(2)), ("b", Int(3))], contentType, env).state.lastCall.params ==
            [("a", Int(1)), ("b", Int(3))]
  {
    var params, defaults := [("a", Int(2)), ("b", Int(3))], [("a", Int(1))];
    assert defaults[1..] == [];
    assert params[1..] == [("b", Int(3))];
    calc {
      Merge(params, defaults);
      Merge(Put(params, "a", Int(1)), []);
      Put(params, "a", Int(1));
      [("a", Int(1))] + params[1..];
      [("a", Int(1)), ("b", Int(3))];
    }
  }

  // ---------------------------------------------------------------------
  // _getContentType

  /**
   * `_getContentType` as written: the xml and json arms build their header
   * list and drop it, so they fall off the end of the function and yield
   * null; only other types reach the `return array()`.
   */
  function ContentTypeHeaderAsWritten(contentType: string): (r: Option<seq<string>>)
    ensures r == None <==> contentType in SupportedContentTypes
    ensures r != None ==> r == Some([])
  {
    match contentType
    case "xml" => None
    case "json" => None
    case _ => Some([])
  }

  /** `_getContentType` as intended: one Content-Type header naming the MIME type of xml or json. */
  function ContentTypeHeader(contentType: string): (r: seq<string>)
    ensures |r| <= 1
    ensures r != [] <==> contentType in SupportedContentTypes
    ensures contentType == "xml" ==> r == ["Content-Type: text/xml"]
    ensures contentType == "json" ==> r == ["Content-Type: application/json"]
  {
    match contentType
    case "xml" => ["Content-Type: text/xml"]
    case "json" => ["Content-Type: application/json"]
    case _ => []
  }

  /** For both supported types the header the function means to produce is lost. */
  lemma ContentTypeHeaderIsLost(contentType: string)
    requires contentType in SupportedContentTypes
    ensures ContentTypeHeaderAsWritten(contentType) == None
    ensures |ContentTypeHeader(contentType)| == 1
  {
  }

  // ---------------------------------------------------------------------
  // The object

  class ApiCaller {
    var defaultParams: Entries
    var apiUrl: string
    var httpMethod: string
    var lastCall: CallRecord
    var format: string

    function Snapshot(): State
      reads this
    {
      State(defaultParams, apiUrl, httpMethod, lastCall, format)
    }

    ghost predicate Valid()
      reads this
    {
      ConfigValid(Snapshot())
    }

    constructor ()
      ensures Snapshot() == Initial && Valid()
    {
      defaultParams := [];
      apiUrl := "";
      httpMethod := "GET";
      lastCall := NoCall;
      format := "json";
    }

    method SetDefault(param: string, value: Value)
      modifies this
      ensures Snapshot() == SetDefaultSpec(old(Snapshot()), param, value)
      ensures old(Valid()) ==> Valid()
    {
      defaultParams := Put(defaultParams, param, value);
    }

    method ClearDefaults()
      modifies this
      ensures Snapshot() == ClearDefaultsSpec(old(Snapshot()))
      ensures old(Valid()) ==> Valid()
    {
      defaultParams := [];
    }

    method SetMethod(m: string) returns (thrown: Option<Exception>)
      modifies this
      ensures Step(Snapshot(), thrown) == SetMethodSpec(old(Snapshot()), m)
      ensures old(Valid()) ==> Valid()
    {
      if m in Methods {
        httpMethod := m;
        thrown := None;
      } else {
        thrown := Some(Exception(InvalidMethodMessage));
      }
    }

    method SetUrl(url: string, validUrl: string -> bool) returns (thrown: Option<Exception>)
      modifies this
      ensures Step(Snapshot(), thrown) == SetUrlSpec(old(Snapshot()), url, validUrl)
      ensures old(Valid()) ==> Valid()
    {
      if !validUrl(url) {
        return Some(Exception(InvalidUrlMessage));
      }
      apiUrl := url;
      thrown := None;
    }

    method SetFormat(f: string) returns (thrown: Option<Exception>)
      modifies this
      ensures Step(Snapshot(), thrown) == SetFormatSpec(old(Snapshot()), f)
      ensures old(Valid()) ==> Valid()
    {
      if f !in Formats {
        return Some(Exception(UnsupportedFormatMessage(f)));
      }
      format := f;
      thrown := None;
    }

    /**
     * The record of the last call is written in two steps: URL and merged
     * parameters before the exchange, the raw result after it.
     */
    method Call(section: string, params: Entries, contentType: Option<string>, env: Env) returns (out: Outcome)
      modifies this
      ensures CallStep(Snapshot(), out) == CallSpec(old(Snapshot()), section, params, contentType, env)
      ensures old(Valid()) ==> Valid()
      ensures old(Valid()) && !FalsyString(old(apiUrl)) && !RejectsContentType(contentType) ==>
                lastCall.Record? &&
                forall k :: Get(lastCall.params, k) ==
                            if Has(old(defaultParams), k) then Get(old(defaultParams), k) else Get(params, k)
    {
      if FalsyString(apiUrl) {
        return Threw(Exception(MissingUrlMessage));
      }
      if RejectsContentType(contentType) {
        return Threw(Exception(UnsupportedContentTypeMessage(contentType)));
      }
      var merged := Merge(params, defaultParams);
      lastCall := Record(apiUrl + section, merged, None);
      var request := RequestFor(httpMethod, apiUrl + section, merged, env.buildQuery);
      var result := env.exec(request);
      lastCall := lastCall.(data := Some(result));
      out := Dispatch(format, result, env);
    }

    method GetLastCall() returns (r: CallRecord)
      ensures r == lastCall
    {
      r := lastCall;
    }
  }
}
