/** The remote report gateway (src/scripts/data/api.js). Every exported
    operation is a function of its arguments, the current access token and
    the way the HTTP exchange ended; it yields the request it issues (none
    for the checks that fail fast and for the comment stubs) and the object
    the returned promise resolves to. */
module Gateway {
  import opened Js
  import opened Lists

  /** How the HTTP exchange behind a call ended: the parsed JSON body, or a
      rejection (network failure, the 15-second abort, a body that is not JSON). */
  datatype Upstream = Responded(json: Value) | Failed(e: Exception)

  datatype Verb = GET | POST | DELETE

  /** A request body before serialisation: a JSON value or multipart entries. */
  datatype Body = NoBody | JsonBody(json: Value) | FormBody(entries: seq<(string, Value)>)

  /** A request to a path under BASE_URL, with its Authorization header when one is sent. */
  datatype Request = Request(verb: Verb, path: string, authorization: Option<string>, body: Body)

  /** The request an operation issues, if any, and the object it resolves to. */
  datatype Exchange = Exchange(request: Option<Request>, result: Value)

  const RegisterPath: string := "/register"
  const LoginPath: string := "/login"
  const StoriesPath: string := "/stories"
  const SubscribePath: string := "/notifications/subscribe"
  const SendPath: string := "/notifications/send"

  const RegisterInvalidMessage: string := "Invalid registration data. Password must be at least 8 chars"
  const CommentsUnavailable: string := "Comment feature not available"
  const UnauthorizedMessage: string := "Unauthorized"

  /** The names the module exports. */
  const Exports: set<string> := {
    "getRegistered", "getLogin", "getAllReports", "getReportById", "storeNewReport",
    "getAllCommentsByReportId", "storeNewCommentByReportId", "subscribePushNotification",
    "unsubscribePushNotification", "sendReportToMeViaNotification"
  }

  /** `Bearer ${token}`: a missing token is written as `null`. */
  function Bearer(token: Option<string>): string {
    "Bearer " + (match token case Some(t) => t case None => "null")
  }

  /** `!!result.ok` */
  predicate IsOk(result: Value) {
    Truthy(Prop(result, "ok"))
  }

  /** The own properties `{...v}` copies (the index properties of an array or
      string are not modelled). */
  function Spread(v: Value): map<string, Value> {
    if v.Obj? then v.props else map[]
  }

  /** `{ ...json, ok: !json.error }` */
  function Acknowledge(json: Value): (r: Completion<Value>)
    ensures r.Abrupt? <==> Nullish(json)
    ensures r.Normal? ==> Prop(r.value, "ok") == Bool(!Truthy(Prop(json, "error")))
    ensures r.Normal? ==> forall k :: k in Spread(json) && k != "ok" ==> Prop(r.value, k) == Spread(json)[k]
  {
    var err :- Get(json, "error");
    Normal(Obj(Spread(json)["ok" := Bool(!Truthy(err))]))
  }

  /** The object a `catch (e)` returns: `{ ok: false, message: e.message }`,
      plus `error: true` in the operations that add it. */
  function Caught(e: Exception, withErrorFlag: bool): Value {
    if withErrorFlag then Obj(map["ok" := Bool(false), "error" := Bool(true), "message" := MessageOf(e)])
    else Obj(map["ok" := Bool(false), "message" := MessageOf(e)])
  }

  /** `try { json = await res.json(); return { ...json, ok: !json.error } }
      catch (e) { return Caught(e) }`, shared by register, store,
      subscribe, unsubscribe and send. */
  function Settle(upstream: Upstream, withErrorFlag: bool): (r: Value)
    ensures IsOk(r) <==> upstream.Responded? && !Nullish(upstream.json) && !Truthy(Prop(upstream.json, "error"))
    ensures upstream.Responded? && !Nullish(upstream.json) ==>
              Prop(r, "ok") == Bool(!Truthy(Prop(upstream.json, "error")))
    ensures upstream.Failed? ==> r == Caught(upstream.e, withErrorFlag)
    ensures upstream.Failed? ==> Prop(r, "message") == MessageOf(upstream.e)
  {
    match upstream
    case Failed(e) => Caught(e, withErrorFlag)
    case Responded(json) =>
      match Acknowledge(json)
      case Normal(v) => v
      case Abrupt(e) => Caught(e, withErrorFlag)
  }

  // ===== register =====

  /** The local check of getRegistered: `!name || !email || !password || password.length < 8` fails. */
  predicate RegistrationAcceptable(name: string, email: string, password: string) {
    name != "" && email != "" && password != "" && |password| >= 8
  }

  function Register(name: string, email: string, password: string, upstream: Upstream): (x: Exchange)
    ensures !RegistrationAcceptable(name, email, password) ==>
              x.request == None && !IsOk(x.result) && Prop(x.result, "error") == Bool(true)
              && Prop(x.result, "message") == Str(RegisterInvalidMessage)
    ensures |password| < 8 ==> x.request == None && !IsOk(x.result)
    ensures RegistrationAcceptable(name, email, password) ==>
              x.request == Some(Request(POST, RegisterPath, None,
                                        JsonBody(Obj(map["name" := Str(name), "email" := Str(email), "password" := Str(password)]))))
              && x.result == Settle(upstream, true)
  {
    if name == "" || email == "" || password == "" || |password| < 8 then
      Exchange(None, Obj(map["ok" := Bool(false), "error" := Bool(true), "message" := Str(RegisterInvalidMessage)]))
    else
      Exchange(Some(Request(POST, RegisterPath, None,
                            JsonBody(Obj(map["name" := Str(name), "email" := Str(email), "password" := Str(password)])))),
               Settle(upstream, true))
  }

  // ===== login =====

  function LoginBody(json: Value): Completion<Value> {
    var err :- Get(json, "error");
    if !Truthy(err) then
      var login := Prop(json, "loginResult");
      var token :- Get(login, "token");
      Normal(Obj(map["ok" := Bool(true),
                     "data" := Obj(map["accessToken" := token,
                                       "userId" := Prop(login, "userId"),
                                       "name" := Prop(login, "name")])]))
    else
      Normal(Obj(map["ok" := Bool(false), "message" := Prop(json, "message")]))
  }

  function Login(email: string, password: string, upstream: Upstream): (x: Exchange)
    ensures x.request == Some(Request(POST, LoginPath, None,
                                      JsonBody(Obj(map["email" := Str(email), "password" := Str(password)]))))
    ensures IsOk(x.result) <==>
              upstream.Responded? && !Nullish(upstream.json) && !Truthy(Prop(upstream.json, "error"))
              && !Nullish(Prop(upstream.json, "loginResult"))
    ensures IsOk(x.result) ==>
              var login := Prop(upstream.json, "loginResult");
              Prop(x.result, "data") == Obj(map["accessToken" := Prop(login, "token"),
                                                "userId" := Prop(login, "userId"),
                                                "name" := Prop(login, "name")])
    ensures upstream.Failed? ==> x.result == Caught(upstream.e, false)
    ensures upstream.Responded? && !Nullish(upstream.json) && Truthy(Prop(upstream.json, "error")) ==>
              x.result == Obj(map["ok" := Bool(false), "message" := Prop(upstream.json, "message")])
    ensures upstream.Responded? && Nullish(upstream.json) ==>
              x.result == Caught(ReadError(upstream.json, "error"), false)
    ensures upstream.Responded? && !Nullish(upstream.json) && !Truthy(Prop(upstream.json, "error"))
            && Nullish(Prop(upstream.json, "loginResult")) ==>
              x.result == Caught(ReadError(Prop(upstream.json, "loginResult"), "token"), false)
  {
    var body := JsonBody(Obj(map["email" := Str(email), "password" := Str(password)]));
    var result :=
      match upstream
      case Failed(e) => Caught(e, false)
      case Responded(json) =>
        match LoginBody(json)
        case Normal(v) => v
        case Abrupt(e) => Caught(e, false);
    Exchange(Some(Request(POST, LoginPath, None, body)), result)
  }

  // ===== listing =====

  /** The URLSearchParams entries getAllReports appends, in order: `page`,
      `size` and `location`, each only when the argument is not `undefined`,
      `location` written as 1 or 0. */
  function QueryParams(page: Value, size: Value, location: Value): (ps: seq<(string, string)>)
    ensures |ps| == (if page != Undefined then 1 else 0) + (if size != Undefined then 1 else 0)
                     + (if location != Undefined then 1 else 0)
    ensures ps == [] <==> page == Undefined && size == Undefined && location == Undefined
    ensures page != Undefined ==> ps[0] == ("page", ToText(page))
    ensures size != Undefined ==> (if page != Undefined then ps[1] else ps[0]) == ("size", ToText(size))
    ensures location != Undefined ==>
              ps[|ps| - 1] == ("location", if Truthy(location) then "1" else "0")
    ensures location == Undefined ==> forall i :: 0 <= i < |ps| ==> ps[i].0 != "location"
  {
    (if page != Undefined then [("page", ToText(page))] else [])
    + (if size != Undefined then [("size", ToText(size))] else [])
    + (if location != Undefined then [("location", if Truthy(location) then "1" else "0")] else [])
  }

  /** Lines 81-85 as written: an empty parameter list extended by successive appends. */
  method BuildQueryParams(page: Value, size: Value, location: Value) returns (params: seq<(string, string)>)
    ensures params == QueryParams(page, size, location)
  {
    params := [];
    if page != Undefined {
      params := params + [("page", ToText(page))];
    }
    if size != Undefined {
      params := params + [("size", ToText(size))];
    }
    if location != Undefined {
      params := params + [("location", if Truthy(location) then "1" else "0")];
    }
  }

  /** `params.toString()` (percent-encoding is not modelled). */
  function QueryText(ps: seq<(string, string)>): (q: string)
    ensures q == "" <==> ps == []
  {
    var parts := seq(|ps|, i requires 0 <= i < |ps| => ps[i].0 + "=" + ps[i].1);
    assert |ps| > 0 ==> |parts[0]| > 0;
    Join(parts, "&")
  }

  /** The list URL: `?` and the query are appended only when the query is non-empty. */
  function ListPath(ps: seq<(string, string)>): (p: string)
    ensures ps == [] ==> p == StoriesPath
    ensures ps != [] ==> p == StoriesPath + "?" + QueryText(ps)
  {
    var q := QueryText(ps);
    StoriesPath + (if q != "" then "?" + q else "")
  }

  /** One normalised list item (api.js lines 99-108). */
  function StoryRecord(story: Value): Value {
    Obj(map[
      "id" := Prop(story, "id"),
      "title" := Prop(story, "description"),
      "description" := Prop(story, "description"),
      "evidenceImages" := (if Truthy(Prop(story, "photoUrl")) then Arr([Prop(story, "photoUrl")]) else Arr([])),
      "latitude" := Coalesce(Prop(story, "lat"), Null),
      "longitude" := Coalesce(Prop(story, "lon"), Null),
      "createdAt" := Prop(story, "createdAt"),
      "reporterName" := Coalesce(Prop(story, "name"), Str("Unknown"))
    ])
  }

  function ListFailure(message: Value): Value {
    Obj(map["ok" := Bool(false), "data" := Arr([]), "message" := message])
  }

  /** The upstream body the listing accepts: no error flag, `listStory` an
      array, and no nullish entry in it (reading `story.id` of one throws). */
  predicate ListAccepted(upstream: Upstream) {
    && upstream.Responded?
    && !Nullish(upstream.json)
    && !Truthy(Prop(upstream.json, "error"))
    && Prop(upstream.json, "listStory").Arr?
    && FirstNullish(Prop(upstream.json, "listStory").items) == |Prop(upstream.json, "listStory").items|
  }

  function ListBody(json: Value): Completion<Value> {
    var err :- Get(json, "error");
    if !Truthy(err) && Prop(json, "listStory").Arr? then
      var data :- MapOrThrow(Prop(json, "listStory").items, "id", StoryRecord);
      Normal(Obj(map["ok" := Bool(true), "data" := Arr(data)]))
    else
      Normal(ListFailure(Prop(json, "message")))
  }

  function GetAllReports(token: Option<string>, page: Value, size: Value, location: Value, upstream: Upstream): (x: Exchange)
    ensures x.request == Some(Request(GET, ListPath(QueryParams(page, size, location)), Some(Bearer(token)), NoBody))
    ensures IsOk(x.result) <==> ListAccepted(upstream)
    ensures !IsOk(x.result) ==> Prop(x.result, "data") == Arr([])
    ensures IsOk(x.result) ==>
              var stories := Prop(upstream.json, "listStory").items;
              && Prop(x.result, "data").Arr?
              && |Prop(x.result, "data").items| == |stories|
              && forall i :: 0 <= i < |stories| ==> Prop(x.result, "data").items[i] == StoryRecord(stories[i])
    ensures upstream.Failed? ==> x.result == ListFailure(MessageOf(upstream.e))
    ensures upstream.Responded? && Nullish(upstream.json) ==>
              x.result == ListFailure(MessageOf(ReadError(upstream.json, "error")))
    ensures upstream.Responded? && !Nullish(upstream.json)
            && (Truthy(Prop(upstream.json, "error")) || !Prop(upstream.json, "listStory").Arr?) ==>
              x.result == ListFailure(Prop(upstream.json, "message"))
    ensures upstream.Responded? && !Nullish(upstream.json)
            && !Truthy(Prop(upstream.json, "error")) && Prop(upstream.json, "listStory").Arr?
            && FirstNullish(Prop(upstream.json, "listStory").items) < |Prop(upstream.json, "listStory").items| ==>
              var stories := Prop(upstream.json, "listStory").items;
              x.result == ListFailure(MessageOf(ReadError(stories[FirstNullish(stories)], "id")))
  {
    var result :=
      match upstream
      case Failed(e) => ListFailure(MessageOf(e))
      case Responded(json) =>
        match ListBody(json)
        case Normal(v) => v
        case Abrupt(e) => ListFailure(MessageOf(e));
    Exchange(Some(Request(GET, ListPath(QueryParams(page, size, location)), Some(Bearer(token)), NoBody)), result)
  }

  /** The defaults of one normalised record: title and description are the
      story's description; one evidence image exactly when `photoUrl` is
      truthy; coordinates become null only when null or undefined (a zero is
      kept); the reporter is 'Unknown' only when `name` is null or undefined. */
  lemma StoryRecordDefaults(story: Value)
    ensures var item := StoryRecord(story);
            && Prop(item, "id") == Prop(story, "id")
            && Prop(item, "title") == Prop(story, "description")
            && Prop(item, "description") == Prop(story, "description")
            && (Truthy(Prop(story, "photoUrl")) ==> Prop(item, "evidenceImages") == Arr([Prop(story, "photoUrl")]))
            && (!Truthy(Prop(story, "photoUrl")) ==> Prop(item, "evidenceImages") == Arr([]))
            && (Nullish(Prop(story, "lat")) <==> Prop(item, "latitude") == Null)
            && (!Nullish(Prop(story, "lat")) ==> Prop(item, "latitude") == Prop(story, "lat"))
            && (Nullish(Prop(story, "lon")) <==> Prop(item, "longitude") == Null)
            && (!Nullish(Prop(story, "lon")) ==> Prop(item, "longitude") == Prop(story, "lon"))
            && Prop(item, "createdAt") == Prop(story, "createdAt")
            && (Nullish(Prop(story, "name")) ==> Prop(item, "reporterName") == Str("Unknown"))
            && (!Nullish(Prop(story, "name")) ==> Prop(item, "reporterName") == Prop(story, "name"))
  {
  }

  /** Every item of an accepted listing carries the defaults of its story. */
  lemma ListItemDefaults(token: Option<string>, page: Value, size: Value, location: Value, upstream: Upstream, i: nat)
    requires IsOk(GetAllReports(token, page, size, location, upstream).result)
    requires i < |Prop(upstream.json, "listStory").items|
    ensures var story := Prop(upstream.json, "listStory").items[i];
            var item := Prop(GetAllReports(token, page, size, location, upstream).result, "data").items[i];
            && Prop(item, "id") == Prop(story, "id")
            && Prop(item, "title") == Prop(story, "description")
            && Prop(item, "description") == Prop(story, "description")
            && (Truthy(Prop(story, "photoUrl")) ==> Prop(item, "evidenceImages") == Arr([Prop(story, "photoUrl")]))
            && (!Truthy(Prop(story, "photoUrl")) ==> Prop(item, "evidenceImages") == Arr([]))
            && (Nullish(Prop(story, "lat")) <==> Prop(item, "latitude") == Null)
            && (!Nullish(Prop(story, "lat")) ==> Prop(item, "latitude") == Prop(story, "lat"))
            && (Nullish(Prop(story, "lon")) <==> Prop(item, "longitude") == Null)
            && (!Nullish(Prop(story, "lon")) ==> Prop(item, "longitude") == Prop(story, "lon"))
            && Prop(item, "createdAt") == Prop(story, "createdAt")
            && (Nullish(Prop(story, "name")) ==> Prop(item, "reporterName") == Str("Unknown"))
            && (!Nullish(Prop(story, "name")) ==> Prop(item, "reporterName") == Prop(story, "name"))
  {
    var story := Prop(upstream.json, "listStory").items[i];
    assert Prop(GetAllReports(token, page, size, location, upstream).result, "data").items[i] == StoryRecord(story);
    StoryRecordDefaults(story);
  }

  // ===== detail =====

  /** The detail record (api.js lines 130-139): coordinates nested under
      `location` and the name under `reporter`, both without defaults. */
  function DetailRecord(s: Value): Value {
    Obj(map[
      "id" := Prop(s, "id"),
      "title" := Prop(s, "description"),
      "evidenceImages" := (if Truthy(Prop(s, "photoUrl")) then Arr([Prop(s, "photoUrl")]) else Arr([])),
      "location" := Obj(map["latitude" := Prop(s, "lat"), "longitude" := Prop(s, "lon")]),
      "reporter" := Obj(map["name" := Prop(s, "name")]),
      "createdAt" := Prop(s, "createdAt")
    ])
  }

  function DetailBody(json: Value): Completion<Value> {
    var err :- Get(json, "error");
    if !Truthy(err) && Truthy(Prop(json, "story")) then
      Normal(Obj(map["ok" := Bool(true), "data" := DetailRecord(Prop(json, "story"))]))
    else
      Normal(Obj(map["ok" := Bool(false), "message" := Prop(json, "message")]))
  }

  function GetReportById(token: Option<string>, id: Value, upstream: Upstream): (x: Exchange)
    ensures x.request == Some(Request(GET, StoriesPath + "/" + ToText(id), Some(Bearer(token)), NoBody))
    ensures IsOk(x.result) <==>
              upstream.Responded? && !Nullish(upstream.json) && !Truthy(Prop(upstream.json, "error"))
              && Truthy(Prop(upstream.json, "story"))
    ensures IsOk(x.result) ==>
              var s := Prop(upstream.json, "story");
              var data := Prop(x.result, "data");
              && Prop(data, "id") == Prop(s, "id")
              && Prop(data, "title") == Prop(s, "description")
              && Prop(data, "location") == Obj(map["latitude" := Prop(s, "lat"), "longitude" := Prop(s, "lon")])
              && Prop(data, "reporter") == Obj(map["name" := Prop(s, "name")])
              && Prop(data, "createdAt") == Prop(s, "createdAt")
              && (Truthy(Prop(s, "photoUrl")) ==> Prop(data, "evidenceImages") == Arr([Prop(s, "photoUrl")]))
              && (!Truthy(Prop(s, "photoUrl")) ==> Prop(data, "evidenceImages") == Arr([]))
    ensures !IsOk(x.result) ==> Prop(x.result, "data") == Undefined
    ensures !IsOk(x.result) && upstream.Responded? && !Nullish(upstream.json) ==>
              Prop(x.result, "message") == Prop(upstream.json, "message")
    ensures upstream.Failed? ==> x.result == Caught(upstream.e, false)
  {
    var result :=
      match upstream
      case Failed(e) => Caught(e, false)
      case Responded(json) =>
        match DetailBody(json)
        case Normal(v) => v
        case Abrupt(e) => Caught(e, false);
    Exchange(Some(Request(GET, StoriesPath + "/" + ToText(id), Some(Bearer(token)), NoBody)), result)
  }

  // ===== submission =====

  function StoreNewReport(token: Option<string>, formData: seq<(string, Value)>, upstream: Upstream): (x: Exchange)
    ensures x.request == Some(Request(POST, StoriesPath, Some(Bearer(token)), FormBody(formData)))
    ensures x.result == Settle(upstream, false)
    ensures upstream.Failed? ==> x.result.Obj? && "error" !in x.result.props
  {
    Exchange(Some(Request(POST, StoriesPath, Some(Bearer(token)), FormBody(formData))), Settle(upstream, false))
  }

  // ===== comments =====

  /** getAllCommentsByReportId: a constant, with no request. */
  function CommentsList(): (x: Exchange)
    ensures x.request == None && IsOk(x.result)
    ensures Prop(x.result, "data") == Arr([]) && Prop(x.result, "message") == Str(CommentsUnavailable)
  {
    Exchange(None, Obj(map["ok" := Bool(true), "message" := Str(CommentsUnavailable), "data" := Arr([])]))
  }

  /** storeNewCommentByReportId: a constant failure, with no request. */
  function StoreComment(): (x: Exchange)
    ensures x.request == None && !IsOk(x.result)
    ensures Prop(x.result, "message") == Str(CommentsUnavailable)
  {
    Exchange(None, Obj(map["ok" := Bool(false), "message" := Str(CommentsUnavailable)]))
  }

  // ===== push notifications =====

  function SubscribePush(token: Option<string>, endpoint: Value, p256dh: Value, auth: Value, upstream: Upstream): (x: Exchange)
    ensures x.request == Some(Request(POST, SubscribePath, Some(Bearer(token)),
                                      JsonBody(Obj(map["endpoint" := endpoint,
                                                       "keys" := Obj(map["p256dh" := p256dh, "auth" := auth])]))))
    ensures x.result == Settle(upstream, false)
  {
    Exchange(Some(Request(POST, SubscribePath, Some(Bearer(token)),
                          JsonBody(Obj(map["endpoint" := endpoint,
                                           "keys" := Obj(map["p256dh" := p256dh, "auth" := auth])])))),
             Settle(upstream, false))
  }

  /** The unsubscribe call reuses the subscribe path with the DELETE verb. */
  function UnsubscribePush(token: Option<string>, endpoint: Value, upstream: Upstream): (x: Exchange)
    ensures x.request == Some(Request(DELETE, SubscribePath, Some(Bearer(token)),
                                      JsonBody(Obj(map["endpoint" := endpoint]))))
    ensures x.result == Settle(upstream, false)
  {
    Exchange(Some(Request(DELETE, SubscribePath, Some(Bearer(token)), JsonBody(Obj(map["endpoint" := endpoint])))),
             Settle(upstream, false))
  }

  /** sendReportToMeViaNotification: without a (non-empty) token it answers
      'Unauthorized' and issues no request. */
  function SendReportToMe(token: Option<string>, reportId: Value, upstream: Upstream): (x: Exchange)
    ensures (token == None || token == Some("")) ==>
              x.request == None && x.result == Obj(map["ok" := Bool(false), "message" := Str(UnauthorizedMessage)])
    ensures token.Some? && token.value != "" ==>
              x.request == Some(Request(POST, SendPath, Some(Bearer(token)), JsonBody(Obj(map["reportId" := reportId]))))
              && x.result == Settle(upstream, true)
  {
    if token == None || token == Some("") then
      Exchange(None, Obj(map["ok" := Bool(false), "message" := Str(UnauthorizedMessage)]))
    else
      Exchange(Some(Request(POST, SendPath, Some(Bearer(token)), JsonBody(Obj(map["reportId" := reportId])))),
               Settle(upstream, true))
  }
}
