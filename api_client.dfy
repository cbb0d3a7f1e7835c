/** The front end's HTTP client (src/services/api/client.ts): how `get` builds the requested URL
  * from an endpoint and its parameters, how an HTTP error status becomes an `ApiError`, and how
  * whatever a request throws is classified. `fetch` itself, its timer and `response.json()` are
  * not modelled: what they produced arrives as a `Reply`. A thrown value is modelled by its
  * properties (a `JsVal`) and whether it is a `TypeError`. */
module HttpClient {
  import opened Wrappers
  import opened PyJson
  import opened JsValues
  import Text
  import PyLoops

  const BaseUrl := "http://localhost:8000/api"
  /** The request timeout, in milliseconds. */
  const Timeout := 10000

  const NetworkErrorType := "NETWORK_ERROR"
  const TimeoutErrorType := "TIMEOUT_ERROR"
  const ServerErrorType := "SERVER_ERROR"
  const NotFoundType := "NOT_FOUND"
  const ValidationErrorType := "VALIDATION_ERROR"

  const TimeoutMessage := "La requête a pris trop de temps à répondre"
  const NetworkMessage := "Impossible de se connecter au serveur. Vérifiez que le backend est démarré."
  const UnexpectedMessage := "Une erreur inattendue s'est produite"

  /** `{ type, message, details }`, the plain object the client throws. */
  function ErrorObject(kind: string, message: Json, details: Json): Json {
    JDict(map["type" := JStr(kind), "message" := message, "details" := details])
  }

  /** What `handleRequestError` takes for an `ApiError` already: its `type` and `message` are both
    * truthy. */
  predicate IsApiError(v: JsVal) {
    JsTruthy(OptProp(v, "type")) && JsTruthy(OptProp(v, "message"))
  }

  /** `v || 'text'`, for a text that is not empty. */
  function OrText(v: JsVal, text: string): (j: Json)
    requires text != ""
    ensures JsTruthy(Js(j))
    ensures JsTruthy(v) ==> Js(j) == v
    ensures !JsTruthy(v) ==> j == JStr(text)
  {
    if JsTruthy(v) then v.json else JStr(text)
  }

  /** The error type of a failed HTTP status: 404 is not found, any other 4xx status a validation
    * error, everything else a server error. */
  function HttpErrorKind(status: int): (kind: string)
    ensures kind == NotFoundType <==> status == 404
    ensures kind == ValidationErrorType <==> 400 <= status < 500 && status != 404
    ensures kind == ServerErrorType <==> !(400 <= status < 500)
  {
    if status == 404 then NotFoundType
    else if 400 <= status < 500 then ValidationErrorType
    else ServerErrorType
  }

  function HttpFallbackMessage(status: int, statusText: string): string {
    "HTTP " + Text.IntToString(status) + ": " + statusText
  }

  /** The message of an HTTP error: the body's truthy `detail`, else "HTTP {status}: {statusText}".
    * A body that is not JSON (None), or whose `detail` cannot be read because it is `null`, leaves
    * the fallback, as the `catch` around it does. */
  function HttpErrorMessage(status: int, statusText: string, body: Option<Json>): (m: Json)
    ensures JsTruthy(Js(m))
    ensures (body.Some? && body.value.JDict? && "detail" in body.value.fields &&
             JsTruthy(Js(body.value.fields["detail"]))) ==> m == body.value.fields["detail"]
    ensures (body.None? || !JsTruthy(OptProp(Js(body.value), "detail"))) ==>
      m == JStr(HttpFallbackMessage(status, statusText))
  {
    var fallback := HttpFallbackMessage(status, statusText);
    match body
    case None => JStr(fallback)
    case Some(j) =>
      match Prop(Js(j), "detail")
      case None => JStr(fallback)
      case Some(detail) => OrText(detail, fallback)
  }

  /** `handleHttpError`: the error for a response whose status is not ok, with the status and its
    * text as details. It is an `ApiError` in `handleRequestError`'s sense. */
  function HandleHttpError(status: int, statusText: string, body: Option<Json>): (e: Json)
    ensures IsApiError(Js(e))
    ensures Prop(Js(e), "type") == Some(Js(JStr(HttpErrorKind(status))))
    ensures Prop(Js(e), "message") == Some(Js(HttpErrorMessage(status, statusText, body)))
    ensures Prop(Js(e), "details") ==
      Some(Js(JDict(map["status" := JInt(status), "statusText" := JStr(statusText)])))
    ensures OptProp(Js(e), "name") == Undefined
  {
    ErrorObject(HttpErrorKind(status), HttpErrorMessage(status, statusText, body),
                JDict(map["status" := JInt(status), "statusText" := JStr(statusText)]))
  }

  /** A value a request threw: its properties, and whether it is a `TypeError`. */
  datatype Thrown = Thrown(value: JsVal, isTypeError: bool)

  /** `m.includes(needle)`: substring search on a string, element search on an array; None is the
    * TypeError of calling it on anything else. */
  function Includes(m: JsVal, needle: string): (r: Option<bool>)
    ensures m.Js? && m.json.JStr? ==> r == Some(Text.Contains(m.json.s, needle))
    ensures m.Js? && m.json.JList? ==> r == Some(JStr(needle) in m.json.items)
    ensures r.None? <==> !(m.Js? && (m.json.JStr? || m.json.JList?))
  {
    match m
    case Undefined => None
    case Js(j) =>
      match j
      case JStr(s) => Some(Text.Contains(s, needle))
      case JList(xs) => Some(JStr(needle) in xs)
      case _ => None
  }

  /** Whether a thrown `TypeError` is one of `fetch`'s (its message mentions 'fetch'); None when
    * reading that message fails. Other values are never network errors. */
  function MentionsFetch(error: Thrown): Option<bool> {
    if error.isTypeError then Includes(OptProp(error.value, "message"), "fetch") else Some(false)
  }

  /** `handleRequestError`: an `AbortError` is a timeout, a `TypeError` about `fetch` a network
    * error, a value that already has a type and a message is returned as it is, and anything
    * else is a server error with its own message or a default one. None is the TypeError the
    * handler itself throws: on `undefined` or `null`, or a `TypeError` whose message has no
    * `includes`. Whatever it returns is an `ApiError`. */
  function HandleRequestError(error: Thrown, timeout: int, baseURL: string): (r: Option<Json>)
    ensures r.None? <==>
      Nullish(error.value) || (OptProp(error.value, "name") != Js(JStr("AbortError")) && MentionsFetch(error).None?)
    ensures r.Some? ==> IsApiError(Js(r.value))
    ensures r.Some? && OptProp(error.value, "name") == Js(JStr("AbortError")) ==>
      r.value == ErrorObject(TimeoutErrorType, JStr(TimeoutMessage), JDict(map["timeout" := JInt(timeout)]))
    ensures r.Some? && OptProp(error.value, "name") != Js(JStr("AbortError")) && MentionsFetch(error) == Some(true) ==>
      r.value == ErrorObject(NetworkErrorType, JStr(NetworkMessage), JDict(map["baseURL" := JStr(baseURL)]))
    ensures r.Some? && OptProp(error.value, "name") != Js(JStr("AbortError")) && MentionsFetch(error) == Some(false) ==>
      (r.value == error.value.json <==> IsApiError(error.value))
    ensures !Nullish(error.value) && OptProp(error.value, "name") != Js(JStr("AbortError")) &&
            MentionsFetch(error) == Some(false) && !IsApiError(error.value) ==>
      r == Some(ErrorObject(ServerErrorType, OrText(OptProp(error.value, "message"), UnexpectedMessage), error.value.json))
    ensures r.Some? && r.value != error.value.json ==> OptProp(Js(r.value), "name") == Undefined
  {
    var name :- Prop(error.value, "name");
    if name == Js(JStr("AbortError")) then
      Some(ErrorObject(TimeoutErrorType, JStr(TimeoutMessage), JDict(map["timeout" := JInt(timeout)])))
    else
      var fetchFailed :- MentionsFetch(error);
      if fetchFailed then
        Some(ErrorObject(NetworkErrorType, JStr(NetworkMessage), JDict(map["baseURL" := JStr(baseURL)])))
      else if IsApiError(error.value) then
        Some(error.value.json)
      else
        var message := OrText(OptProp(error.value, "message"), UnexpectedMessage);
        var r := ErrorObject(ServerErrorType, message, error.value.json);
        assert r != error.value.json by {
          assert OptProp(Js(r), "type") == Js(JStr(ServerErrorType));
        }
        Some(r)
  }

  /** An error the handler produced, thrown again as a plain object, comes back unchanged: errors
    * are never wrapped twice. */
  lemma HandleRequestErrorIdempotent(error: Thrown, timeout: int, baseURL: string, timeout2: int, baseURL2: string)
    requires HandleRequestError(error, timeout, baseURL).Some?
    ensures var r := HandleRequestError(error, timeout, baseURL).value;
      HandleRequestError(Thrown(Js(r), false), timeout2, baseURL2) == Some(r)
  {
    var r := HandleRequestError(error, timeout, baseURL).value;
    if r == error.value.json {
      assert OptProp(error.value, "name") != Js(JStr("AbortError"));
    }
  }

  /** So the error `handleHttpError` throws inside `request`'s `try` leaves its `catch` unchanged. */
  lemma HttpErrorPassesThrough(status: int, statusText: string, body: Option<Json>, timeout: int, baseURL: string)
    ensures HandleRequestError(Thrown(Js(HandleHttpError(status, statusText, body)), false), timeout, baseURL) ==
            Some(HandleHttpError(status, statusText, body))
  {
  }

  /** What `response.json()` gave: the parsed body or what it threw. */
  datatype Body = Parsed(json: Json) | Unparsable(error: Thrown)

  /** How `fetch` ended: a response with its status, status text and body, or a rejection. */
  datatype Reply = Responded(status: int, statusText: string, body: Body) | FetchRejected(error: Thrown)

  /** How `request` ends: with the parsed data, rejected with an error, or with the TypeError
    * `handleRequestError` throws itself. */
  datatype Outcome = Resolved(data: Json) | Rejected(error: Json) | HandlerFailed

  function Rejection(caught: Thrown, timeout: int, baseURL: string): (o: Outcome)
    ensures o.Rejected? <==> HandleRequestError(caught, timeout, baseURL).Some?
    ensures o.Rejected? ==> o.error == HandleRequestError(caught, timeout, baseURL).value
    ensures o.HandlerFailed? <==> HandleRequestError(caught, timeout, baseURL).None?
  {
    match HandleRequestError(caught, timeout, baseURL)
    case None => HandlerFailed
    case Some(e) => Rejected(e)
  }

  /** `request`: an ok status (200 to 299) resolves with the parsed body; any other status rejects
    * with `handleHttpError`'s error, which the `catch` passes on unchanged; everything thrown
    * along the way is classified by `handleRequestError`. */
  function Request(reply: Reply, timeout: int, baseURL: string): (o: Outcome)
    ensures reply.Responded? && !(200 <= reply.status < 300) ==>
      o == Rejected(HandleHttpError(reply.status, reply.statusText,
                                    if reply.body.Parsed? then Some(reply.body.json) else None))
    ensures reply.Responded? && 200 <= reply.status < 300 && reply.body.Parsed? ==> o == Resolved(reply.body.json)
    ensures o.Rejected? ==> IsApiError(Js(o.error))
  {
    match reply
    case FetchRejected(e) => Rejection(e, timeout, baseURL)
    case Responded(status, statusText, body) =>
      if !(200 <= status < 300) then
        var parsed := if body.Parsed? then Some(body.json) else None;
        HttpErrorPassesThrough(status, statusText, parsed, timeout, baseURL);
        Rejection(Thrown(Js(HandleHttpError(status, statusText, parsed)), false), timeout, baseURL)
      else
        match body
        case Parsed(data) => Resolved(data)
        case Unparsable(e) => Rejection(e, timeout, baseURL)
  }

  /** A query parameter `get` keeps: one whose value is neither `undefined` nor `null`. */
  predicate IsSet(param: (string, JsVal)) {
    !Nullish(param.1)
  }

  /** `String(value)` of each kept parameter. */
  function Stringified(params: seq<(string, JsVal)>): (r: seq<(string, string)>)
    ensures |r| == |params|
    ensures forall i :: 0 <= i < |params| ==> r[i] == (params[i].0, JsText(params[i].1))
  {
    seq(|params|, i requires 0 <= i < |params| => (params[i].0, JsText(params[i].1)))
  }

  /** The pairs `get` appends to its `URLSearchParams`, in the order of the parameter object's
    * entries. */
  function SearchParams(params: seq<(string, JsVal)>): (r: seq<(string, string)>)
  {
    Stringified(PyLoops.Filter(IsSet, params))
  }

  /** `pair` is the key and `String` value of a set parameter. */
  ghost predicate SentFrom(params: seq<(string, JsVal)>, pair: (string, string)) {
    exists v :: (pair.0, v) in params && !Nullish(v) && JsText(v) == pair.1
  }

  /** A parameter is sent exactly when its value is set, with its `String` value: 0, false and the
    * empty string included. */
  lemma SearchParamsKept(params: seq<(string, JsVal)>, key: string, value: JsVal)
    ensures (key, value) in params && !Nullish(value) ==> (key, JsText(value)) in SearchParams(params)
    ensures forall i :: 0 <= i < |SearchParams(params)| ==> SentFrom(params, SearchParams(params)[i])
  {
    var kept := PyLoops.Filter(IsSet, params);
    PyLoops.FilterMember(IsSet, params, (key, value));
    if (key, value) in params && !Nullish(value) {
      var i :| 0 <= i < |kept| && kept[i] == (key, value);
      assert SearchParams(params)[i] == (key, JsText(value));
    }
    forall i | 0 <= i < |SearchParams(params)|
      ensures SentFrom(params, SearchParams(params)[i])
    {
      var p := kept[i];
      assert p in params && IsSet(p);
      assert SearchParams(params)[i] == (p.0, JsText(p.1));
      assert (SearchParams(params)[i].0, p.1) == p;
    }
  }

  /** `value !== undefined && value !== null` lets 0 and '' through, and drops only the two. */
  lemma FalsyValuesAreSent()
    ensures SearchParams([("page", Js(JInt(0))), ("q", Js(JStr(""))), ("team", Undefined), ("season", Js(JNull))]) ==
            [("page", "0"), ("q", "")]
  {
    var ps := [("page", Js(JInt(0))), ("q", Js(JStr(""))), ("team", Undefined), ("season", Js(JNull))];
    SetOfFour(ps);
    assert JsText(Js(JInt(0))) == Text.IntToString(0) == "0";
  }

  /** Of four parameters whose last two are unset, the first two are kept. */
  lemma SetOfFour(ps: seq<(string, JsVal)>)
    requires |ps| == 4 && IsSet(ps[0]) && IsSet(ps[1]) && !IsSet(ps[2]) && !IsSet(ps[3])
    ensures PyLoops.Filter(IsSet, ps) == [ps[0], ps[1]]
  {
    assert ps[..|ps| - 1] == ps[..3] && ps[..3][..2] == ps[..2] && ps[..2][..1] == ps[..1] && ps[..1][..0] == [];
    assert PyLoops.Filter(IsSet, ps[..1]) == [ps[0]];
    assert PyLoops.Filter(IsSet, ps[..2]) == [ps[0], ps[1]];
    assert PyLoops.Filter(IsSet, ps[..3]) == [ps[0], ps[1]];
  }

  /** `URLSearchParams.toString()`: the pairs as "key=value" joined with '&', each part form-encoded
    * by `encode` (the platform's encoding, a parameter here). */
  function QueryString(pairs: seq<(string, string)>, encode: string -> string): (q: string)
    ensures q == "" <==> pairs == []
  {
    if pairs == [] then ""
    else
      var parts := seq(|pairs|, i requires 0 <= i < |pairs| => encode(pairs[i].0) + "=" + encode(pairs[i].1));
      JoinNotEmpty(parts, '&');
      Text.Join(parts, '&')
  }

  lemma JoinNotEmpty(parts: seq<string>, sep: char)
    requires |parts| >= 1 && parts[0] != []
    ensures Text.Join(parts, sep) != []
  {
  }

  /** The path `get` requests: the endpoint, followed by '?' and the query only when there are
    * parameters and at least one is set. */
  function RequestPath(endpoint: string, params: Option<seq<(string, JsVal)>>, encode: string -> string): (path: string)
    ensures params.None? || SearchParams(params.value) == [] ==> path == endpoint
    ensures params.Some? && SearchParams(params.value) != [] ==>
      path == endpoint + "?" + QueryString(SearchParams(params.value), encode)
    ensures path == endpoint <==> params.None? || SearchParams(params.value) == []
  {
    if params.None? then endpoint
    else
      var query := QueryString(SearchParams(params.value), encode);
      if query != "" then endpoint + "?" + query else endpoint
  }

  /** The client, with the base URL and timeout of its configuration. */
  class ApiClient {
    var baseURL: string
    var timeout: int

    constructor()
      ensures baseURL == BaseUrl && timeout == Timeout
    {
      baseURL := BaseUrl;
      timeout := Timeout;
    }

    /** `get`: appends every set parameter to the query in turn, requests the base URL followed by
      * the endpoint and the query, and ends as `request` does for the reply. */
    method Get(endpoint: string, params: Option<seq<(string, JsVal)>>, encode: string -> string, reply: Reply)
      returns (url: string, outcome: Outcome)
      ensures url == baseURL + RequestPath(endpoint, params, encode)
      ensures outcome == Request(reply, timeout, baseURL)
    {
      var path := endpoint;
      if params.Some? {
        var entries := params.value;
        var searchParams: seq<(string, string)> := [];
        var i := 0;
        while i < |entries|
          invariant 0 <= i <= |entries|
          invariant searchParams == SearchParams(entries[..i])
        {
          ghost var before := entries[..i];
          assert entries[..i + 1] == before + [entries[i]];
          assert entries[..i + 1][..i] == before;
          var (key, value) := entries[i];
          if !Nullish(value) {
            searchParams := searchParams + [(key, JsText(value))];
          }
          i := i + 1;
        }
        assert entries[..i] == entries;
        var query := QueryString(searchParams, encode);
        if query != "" {
          path := path + "?" + query;
        }
      }
      url := baseURL + path;
      outcome := Request(reply, timeout, baseURL);
    }
  }
}
