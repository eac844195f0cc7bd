/**
 * The API client: the single place where requests are built and where a
 * response is turned into a value or an error message.
 */
module Api {
  import opened Wrappers
  import opened Js

  /** The message shown when an error payload carries no usable `message`. */
  const GenericErrorMessage := "Une erreur est survenue. Reessaye plus tard."

  // ----- error normalisation -----

  /** `normalizeApiError(payload, fallback)`. */
  function NormalizeApiError(payload: Json, fallback: string): (r: string)
    ensures r != fallback ==>
              Truthy(payload) && Field(payload, "message").Some?
              && (Field(payload, "message").value.JStr?
                  || (Field(payload, "message").value.JArr? && |Field(payload, "message").value.items| > 0))
  {
    if !Truthy(payload) then fallback
    else match Field(payload, "message")
      case Some(JStr(s)) => s
      case Some(JArr(items)) =>
        if |items| > 0 then JoinStrings(ElementStrings(items), ", ") else fallback
      case _ => fallback
  }

  /** A missing or falsy payload gives the fallback. */
  lemma NormalizeFalsyPayload(payload: Json, fallback: string)
    requires !Truthy(payload)
    ensures NormalizeApiError(payload, fallback) == fallback
  {
  }

  /** A string `message` is returned verbatim. */
  lemma NormalizeStringMessage(fields: map<string, Json>, s: string, fallback: string)
    requires "message" in fields && fields["message"] == JStr(s)
    ensures NormalizeApiError(JObj(fields), fallback) == s
  {
  }

  /** A non-empty list `message` is rendered element by element and joined with ", ". */
  lemma NormalizeListPayload(fields: map<string, Json>, items: seq<Json>, fallback: string)
    requires |items| > 0
    requires "message" in fields && fields["message"] == JArr(items)
    ensures NormalizeApiError(JObj(fields), fallback) == JoinStrings(ElementStrings(items), ", ")
  {
    assert Field(JObj(fields), "message") == Some(JArr(items));
  }

  /** A non-empty list of strings is joined with ", ". */
  lemma NormalizeListMessage(fields: map<string, Json>, items: seq<Json>, parts: seq<string>, fallback: string)
    requires |items| == |parts| > 0
    requires forall i :: 0 <= i < |items| ==> items[i] == JStr(parts[i])
    requires "message" in fields && fields["message"] == JArr(items)
    ensures NormalizeApiError(JObj(fields), fallback) == JoinStrings(parts, ", ")
  {
    NormalizeListPayload(fields, items, fallback);
    ElementStringsOfStrings(items, parts);
  }

  /**
   * Every payload that has neither a string `message` nor a non-empty list
   * `message` gives the fallback.
   */
  lemma NormalizeOtherShapes(payload: Json, fallback: string)
    requires !(Truthy(payload) && Field(payload, "message").Some? && Field(payload, "message").value.JStr?)
    requires !(Truthy(payload) && Field(payload, "message").Some?
               && Field(payload, "message").value.JArr? && |Field(payload, "message").value.items| > 0)
    ensures NormalizeApiError(payload, fallback) == fallback
  {
  }

  /** The payloads the server documents, normalised. */
  lemma NormalizeExamples(fallback: string)
    ensures NormalizeApiError(JObj(map["message" := JStr("X")]), fallback) == "X"
    ensures NormalizeApiError(JObj(map["message" := JArr([JStr("A"), JStr("B")])]), fallback) == "A, B"
    ensures NormalizeApiError(JObj(map["message" := JArr([])]), fallback) == fallback
    ensures NormalizeApiError(JObj(map[]), fallback) == fallback
    ensures NormalizeApiError(JNull, fallback) == fallback
  {
    var items := [JStr("A"), JStr("B")];
    assert ElementStrings(items)[0] == "A" && ElementStrings(items)[1] == "B";
    assert ElementStrings(items) == ["A", "B"];
    assert ["A", "B"][1..] == ["B"];
    assert JoinStrings(["A", "B"], ", ") == "A" + ", " + "B";
  }

  // ----- request headers -----

  /** A header object: names in insertion order, each with its value. */
  type Headers = seq<(string, string)>

  function Names(h: Headers): set<string> {
    set i | 0 <= i < |h| :: h[i].0
  }

  /** A JavaScript object holds each property name once. */
  predicate UniqueNames(h: Headers) {
    forall i, j :: 0 <= i < j < |h| ==> h[i].0 != h[j].0
  }

  /** `h[name]` */
  function Lookup(h: Headers, name: string): Option<string> {
    if |h| == 0 then None
    else if h[0].0 == name then Some(h[0].1)
    else Lookup(h[1..], name)
  }

  /** `h[name] = value`: an existing name keeps its place, a new one goes last. */
  function SetHeader(h: Headers, name: string, value: string): Headers {
    if |h| == 0 then [(name, value)]
    else if h[0].0 == name then [(name, value)] + h[1..]
    else [h[0]] + SetHeader(h[1..], name, value)
  }

  /** `{ ...base, ...extra }` */
  function MergeHeaders(base: Headers, extra: Headers): Headers {
    if |extra| == 0 then base
    else
      var last := extra[|extra| - 1];
      SetHeader(MergeHeaders(base, extra[..|extra| - 1]), last.0, last.1)
  }

  /** The headers `request` sends: JSON content type, caller headers, then the bearer token. */
  function RequestHeaders(caller: Headers, token: Option<Json>): Headers {
    var headers := MergeHeaders([("Content-Type", "application/json")], caller);
    if TruthyValue(token) then SetHeader(headers, "Authorization", "Bearer " + ToJsString(token.value))
    else headers
  }

  /** The names of a non-empty header list: its first name and those of the rest. */
  lemma NamesCons(h: Headers)
    requires |h| > 0
    ensures Names(h) == {h[0].0} + Names(h[1..])
  {
    forall n | n in Names(h) ensures n in {h[0].0} + Names(h[1..]) {
      var i :| 0 <= i < |h| && h[i].0 == n;
      if i > 0 { assert h[1..][i - 1].0 == n; }
    }
    forall n | n in Names(h[1..]) ensures n in Names(h) {
      var i :| 0 <= i < |h[1..]| && h[1..][i].0 == n;
      assert h[i + 1].0 == n;
    }
  }

  lemma {:induction false} LookupSome(h: Headers, name: string)
    ensures Lookup(h, name).Some? <==> name in Names(h)
  {
    if |h| > 0 {
      LookupSome(h[1..], name);
      NamesCons(h);
    }
  }

  /** Setting a header changes that name's value and no other. */
  lemma {:induction false} LookupSetHeader(h: Headers, name: string, value: string, other: string)
    ensures Lookup(SetHeader(h, name, value), other) == if other == name then Some(value) else Lookup(h, other)
  {
    if |h| > 0 && h[0].0 != name {
      LookupSetHeader(h[1..], name, value, other);
    }
  }

  /** Setting a header adds its name to the names, keeps the first one in front, and keeps names unique. */
  lemma {:induction false} SetHeaderShape(h: Headers, name: string, value: string)
    ensures |SetHeader(h, name, value)| > 0
    ensures |h| > 0 ==> SetHeader(h, name, value)[0].0 == h[0].0
    ensures Names(SetHeader(h, name, value)) == Names(h) + {name}
    ensures UniqueNames(h) ==> UniqueNames(SetHeader(h, name, value))
  {
    var r := SetHeader(h, name, value);
    if |h| == 0 {
      NamesCons(r);
      assert r[1..] == [];
    } else if h[0].0 == name {
      NamesCons(r);
      NamesCons(h);
      assert r[1..] == h[1..];
      if UniqueNames(h) {
        forall i, j | 0 <= i < j < |r| ensures r[i].0 != r[j].0 {
          assert r[j] == h[j];
          if i > 0 { assert r[i] == h[i]; }
        }
      }
    } else {
      SetHeaderShape(h[1..], name, value);
      var t := SetHeader(h[1..], name, value);
      assert r == [h[0]] + t;
      assert r[1..] == t;
      NamesCons(r);
      NamesCons(h);
      if UniqueNames(h) {
        UniqueTail(h);
        ConsUnique(h[0], t);
      }
    }
  }

  /** The rest of a unique list is unique and does not hold its first name. */
  lemma UniqueTail(h: Headers)
    requires |h| > 0 && UniqueNames(h)
    ensures UniqueNames(h[1..]) && h[0].0 !in Names(h[1..])
  {
    forall i, j | 0 <= i < j < |h[1..]| ensures h[1..][i].0 != h[1..][j].0 {
      assert h[1..][i] == h[i + 1] && h[1..][j] == h[j + 1];
    }
  }

  /** A header put in front of a unique list whose names exclude it keeps names unique. */
  lemma ConsUnique(x: (string, string), t: Headers)
    requires UniqueNames(t) && x.0 !in Names(t)
    ensures UniqueNames([x] + t)
  {
    var r := [x] + t;
    forall i, j | 0 <= i < j < |r| ensures r[i].0 != r[j].0 {
      assert r[j] == t[j - 1];
      if i == 0 {
        assert t[j - 1].0 in Names(t);
      } else {
        assert r[i] == t[i - 1];
      }
    }
  }

  /** Spreading `extra` over `base`: a name from `extra` wins, any other keeps its value from `base`. */
  lemma {:induction false} MergeHeadersLookup(base: Headers, extra: Headers, name: string)
    requires UniqueNames(extra)
    ensures Lookup(MergeHeaders(base, extra), name)
         == if Lookup(extra, name).Some? then Lookup(extra, name) else Lookup(base, name)
  {
    if |extra| > 0 {
      var init, last := extra[..|extra| - 1], extra[|extra| - 1];
      assert extra == init + [last];
      assert UniqueNames(init);
      MergeHeadersLookup(base, init, name);
      LookupSetHeader(MergeHeaders(base, init), last.0, last.1, name);
      LookupAppend(init, last, name);
      if name == last.0 {
        LookupSome(init, name);
      }
    }
  }

  lemma {:induction false} LookupAppend(h: Headers, x: (string, string), name: string)
    ensures Lookup(h + [x], name)
         == if Lookup(h, name).Some? then Lookup(h, name) else if x.0 == name then Some(x.1) else None
  {
    if |h| > 0 {
      assert (h + [x])[1..] == h[1..] + [x];
      LookupAppend(h[1..], x, name);
    }
  }

  lemma {:induction false} MergeHeadersShape(base: Headers, extra: Headers)
    requires |base| > 0 && UniqueNames(base)
    ensures |MergeHeaders(base, extra)| > 0
    ensures MergeHeaders(base, extra)[0].0 == base[0].0
    ensures UniqueNames(MergeHeaders(base, extra))
  {
    if |extra| > 0 {
      var last := extra[|extra| - 1];
      MergeHeadersShape(base, extra[..|extra| - 1]);
      SetHeaderShape(MergeHeaders(base, extra[..|extra| - 1]), last.0, last.1);
    }
  }

  /**
   * The headers of every request: Content-Type comes first and is
   * `application/json` unless the caller sets it; Authorization is
   * `Bearer <token>` exactly when the token is truthy, overriding the caller;
   * every other header is the caller's.
   */
  lemma RequestHeadersSpec(caller: Headers, token: Option<Json>, name: string)
    requires UniqueNames(caller)
    ensures |RequestHeaders(caller, token)| > 0 && RequestHeaders(caller, token)[0].0 == "Content-Type"
    ensures UniqueNames(RequestHeaders(caller, token))
    ensures Lookup(RequestHeaders(caller, token), "Content-Type")
         == if Lookup(caller, "Content-Type").Some? then Lookup(caller, "Content-Type") else Some("application/json")
    ensures Lookup(RequestHeaders(caller, token), "Authorization")
         == if TruthyValue(token) then Some("Bearer " + ToJsString(token.value)) else Lookup(caller, "Authorization")
    ensures name != "Content-Type" && name != "Authorization" ==>
              Lookup(RequestHeaders(caller, token), name) == Lookup(caller, name)
  {
    var base := [("Content-Type", "application/json")];
    var merged := MergeHeaders(base, caller);
    MergeHeadersShape(base, caller);
    MergeHeadersLookup(base, caller, "Content-Type");
    MergeHeadersLookup(base, caller, "Authorization");
    MergeHeadersLookup(base, caller, name);
    if TruthyValue(token) {
      var v := "Bearer " + ToJsString(token.value);
      SetHeaderShape(merged, "Authorization", v);
      LookupSetHeader(merged, "Authorization", v, "Content-Type");
      LookupSetHeader(merged, "Authorization", v, "Authorization");
      LookupSetHeader(merged, "Authorization", v, name);
    }
  }

  /**
   * Builds the header object as `request` does: start from the JSON
   * content type, copy the caller's headers over it one by one, then set the
   * bearer token when there is one.
   */
  method BuildHeaders(caller: Headers, token: Option<Json>) returns (headers: Headers)
    ensures headers == RequestHeaders(caller, token)
  {
    headers := [("Content-Type", "application/json")];
    var i := 0;
    while i < |caller|
      invariant 0 <= i <= |caller|
      invariant headers == MergeHeaders([("Content-Type", "application/json")], caller[..i])
    {
      assert caller[..i + 1][..i] == caller[..i];
      headers := SetHeader(headers, caller[i].0, caller[i].1);
      i := i + 1;
    }
    assert caller[..i] == caller;
    if TruthyValue(token) {
      headers := SetHeader(headers, "Authorization", "Bearer " + ToJsString(token.value));
    }
  }

  // ----- requests and responses -----

  /** The `options` argument of `request`. */
  datatype Options = Options(verb: Option<string>, body: Option<string>, headers: Headers)

  /** A request as handed to `fetch`: method, endpoint relative to the base URL, body, headers. */
  datatype Call = Call(verb: string, endpoint: string, body: Option<string>, headers: Headers)

  /** What `fetch` produced: a rejection, or a response whose body may not be JSON (None). */
  datatype HttpOutcome =
    | TransportFailure(message: string)
    | Response(ok: bool, body: Option<Json>)

  /** A settled promise: its value, or the `message` of the error it was rejected with. */
  datatype Result<+T> = Ok(value: T) | Err(message: string)

  /** `response.json().catch(() => null)` */
  function BodyData(body: Option<Json>): Json {
    body.GetOr(JNull)
  }

  /** The request `request(endpoint, options, token)` issues. */
  function IssuedCall(endpoint: string, options: Options, token: Option<Json>): Call {
    Call(options.verb.GetOr("GET"), endpoint, options.body, RequestHeaders(options.headers, token))
  }

  /** How `request` settles for a given outcome of `fetch`. */
  function ResponseResult(outcome: HttpOutcome): (r: Result<Json>)
    ensures r.Ok? <==> outcome.Response? && outcome.ok
    ensures outcome.TransportFailure? ==> r == Err(outcome.message)
  {
    match outcome
    case TransportFailure(m) => Err(m)
    case Response(ok, body) =>
      if ok then Ok(BodyData(body)) else Err(NormalizeApiError(BodyData(body), GenericErrorMessage))
  }

  /**
   * `request(endpoint, options, token)`: the request it hands to `fetch` and
   * how it settles once `fetch` has produced `outcome`.
   */
  method Request(endpoint: string, options: Options, token: Option<Json>, outcome: HttpOutcome)
    returns (call: Call, result: Result<Json>)
    ensures call == IssuedCall(endpoint, options, token) && result == ResponseResult(outcome)
    ensures call.verb == (if options.verb.Some? then options.verb.value else "GET")
    ensures call.endpoint == endpoint && call.body == options.body
    ensures UniqueNames(options.headers) ==>
              Lookup(call.headers, "Authorization")
              == if TruthyValue(token) then Some("Bearer " + ToJsString(token.value))
                 else Lookup(options.headers, "Authorization")
    ensures result.Ok? <==> outcome.Response? && outcome.ok
    ensures outcome.Response? && outcome.ok ==>
              result.value == (if outcome.body.Some? then outcome.body.value else JNull)
    ensures outcome.Response? && !outcome.ok ==>
              result.message == NormalizeApiError(BodyData(outcome.body), GenericErrorMessage)
    ensures outcome.TransportFailure? ==> result.message == outcome.message
  {
    var headers := BuildHeaders(options.headers, token);
    if UniqueNames(options.headers) {
      RequestHeadersSpec(options.headers, token, "Authorization");
    }
    call := Call(options.verb.GetOr("GET"), endpoint, options.body, headers);
    match outcome {
      case TransportFailure(m) =>
        result := Err(m);
      case Response(ok, body) =>
        var data := BodyData(body);
        if !ok {
          result := Err(NormalizeApiError(data, GenericErrorMessage));
        } else {
          result := Ok(data);
        }
    }
  }
}
