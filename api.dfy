/** `apiFetch`, the shared wrapper over `fetch` that adds the UI language to every request
    and sends a plain object body as JSON. */
module Api {
  import opened Common
  import opened Http
  import opened Auth

  /** A request body as `apiFetch` tells them apart. `JsonText(fields)` is the string
      `JSON.stringify` makes from the object with those fields. */
  datatype ApiBody = Absent | FormData(parts: seq<Field>) | Text(s: string) | Object(fields: seq<Field>) | JsonText(fields: seq<Field>)

  /** A body `apiFetch` encodes: present (truthy), not form data and not a string. */
  predicate IsPlainObject(b: ApiBody) {
    b.Object?
  }

  /** The body after encoding: a plain object becomes its JSON text, anything else is kept. */
  function Encoded(b: ApiBody): (e: ApiBody)
    ensures IsPlainObject(b) ==> e == JsonText(b.fields)
    ensures !IsPlainObject(b) ==> e == b
    ensures !IsPlainObject(e)
  {
    if b.Object? then JsonText(b.fields) else b
  }

  /** The headers sent: the language, a JSON content type for an encoded object, and the
      caller's headers, which win over both. */
  function ApiHeaders(items: map<string, string>, b: ApiBody, callerHeaders: Option<map<string, string>>)
    : (h: map<string, string>)
    ensures var own := if callerHeaders.Some? then callerHeaders.value else map[];
            (forall k :: k in own ==> k in h && h[k] == own[k])
            && (forall k :: k in h ==> k in own || k in {"Accept-Language", "Content-Type"})
            && ("Accept-Language" !in own ==> "Accept-Language" in h && h["Accept-Language"] == LangOrDefault(items))
            && ("Content-Type" !in own ==>
                  ("Content-Type" in h <==> IsPlainObject(b))
                  && (IsPlainObject(b) ==> h["Content-Type"] == "application/json"))
  {
    var defaults: map<string, string> := map["Accept-Language" := LangOrDefault(items)];
    var withType := if IsPlainObject(b) then defaults["Content-Type" := "application/json"] else defaults;
    withType + (if callerHeaders.Some? then callerHeaders.value else map[])
  }

  /** The options object the caller passes; `apiFetch` reassigns its `body` in place. */
  class RequestOptions {
    var verb: Method
    var body: ApiBody
    var headers: Option<map<string, string>>

    constructor (verb: Method, body: ApiBody, headers: Option<map<string, string>>)
      ensures this.verb == verb && this.body == body && this.headers == headers
    {
      this.verb := verb;
      this.body := body;
      this.headers := headers;
    }
  }

  datatype ApiCall = ApiCall(url: string, verb: Method, headers: map<string, string>, body: ApiBody)

  /** `apiFetch(endpoint, options)`: encodes an object body in the caller's own options and
      issues the call with the merged headers. */
  method ApiFetch(storage: LocalStorage, endpoint: string, options: RequestOptions) returns (call: ApiCall)
    modifies options
    ensures options.body == Encoded(old(options.body))
    ensures options.verb == old(options.verb) && options.headers == old(options.headers)
    ensures call == ApiCall(RequestUrl(endpoint), options.verb,
                            ApiHeaders(storage.items, old(options.body), options.headers), options.body)
  {
    var lang := if LangKey in storage.items && storage.items[LangKey] != "" then storage.items[LangKey] else "ru";
    var defaultHeaders: map<string, string> := map["Accept-Language" := lang];
    if options.body.Object? {
      defaultHeaders := defaultHeaders["Content-Type" := "application/json"];
      options.body := JsonText(options.body.fields);
    }
    var own := if options.headers.Some? then options.headers.value else map[];
    call := ApiCall(ApiBaseUrl + endpoint, options.verb, defaultHeaders + own, options.body);
  }

  /** Because the encoding happens in the caller's options, passing the same options a second
      time sends the JSON text without the JSON content type. */
  method ApiFetchTwice(storage: LocalStorage, endpoint: string, fields: seq<Field>)
    returns (first: ApiCall, second: ApiCall)
    ensures first.body == second.body == JsonText(fields)
    ensures "Content-Type" in first.headers && first.headers["Content-Type"] == "application/json"
    ensures "Content-Type" !in second.headers
  {
    var options := new RequestOptions(POST, Object(fields), None);
    first := ApiFetch(storage, endpoint, options);
    second := ApiFetch(storage, endpoint, options);
  }
}
