/** The decisions of the service worker (src/scripts/sw.js): which runtime
    cache route a request falls under, the notification a push shows, and the
    window a notification click focuses or opens. */
module ServiceWorker {
  import opened Js

  // ===== runtime routes =====

  datatype Strategy = CacheFirst | NetworkFirst | StaleWhileRevalidate

  /** A route's handler: its strategy, its cache name and, when it carries a
      cacheable-response plugin, the statuses that plugin lets into the cache. */
  datatype Handler = Handler(strategy: Strategy, cacheName: string, cacheableStatuses: Option<set<int>>)

  /** What the router inspects: the request's HTTP method (`verb`), the URL's origin
      and the request's destination. */
  datatype FetchRequest = FetchRequest(verb: string, origin: string, destination: string)

  datatype Matcher = GoogleFonts | FontAwesome | Avatars | ApiJson | ApiImages | MapTiles

  const GoogleFontsOrigin: string := "https://fonts.googleapis.com"
  const GoogleStaticOrigin: string := "https://fonts.gstatic.com"
  const CdnjsOrigin: string := "https://cdnjs.cloudflare.com"

  /** The match callbacks; `baseOrigin` is the origin of BASE_URL. */
  predicate Matches(m: Matcher, req: FetchRequest, baseOrigin: string) {
    match m
    case GoogleFonts => req.origin == GoogleFontsOrigin || req.origin == GoogleStaticOrigin
    case FontAwesome => req.origin == CdnjsOrigin || Includes(req.origin, "fontawesome")
    case Avatars => Includes(req.origin, "avatars.githubusercontent")
    case ApiJson => baseOrigin == req.origin && req.destination != "image"
    case ApiImages => baseOrigin == req.origin && req.destination == "image"
    case MapTiles => Includes(req.origin, "maptiler")
  }

  /** The method a route is registered for when `registerRoute` is given
      none, as every route here is; the router only consults the routes
      registered for the request's own method. */
  const RouteMethod: string := "GET"

  /** The runtime routes in registration order, all registered for `RouteMethod`. */
  const Routes: seq<(Matcher, Handler)> := [
    (GoogleFonts, Handler(CacheFirst, "google-fonts", None)),
    (FontAwesome, Handler(CacheFirst, "fontawesome", None)),
    (Avatars, Handler(CacheFirst, "avatars-api", Some({0, 200}))),
    (ApiJson, Handler(NetworkFirst, "stories-api", None)),
    (ApiImages, Handler(StaleWhileRevalidate, "stories-api-images", None)),
    (MapTiles, Handler(CacheFirst, "maptiler-api", None))
  ]

  /** The first route from position `i` on whose callback matches. */
  function FirstMatchFrom(req: FetchRequest, baseOrigin: string, i: nat): Option<Handler>
    decreases |Routes| - i
  {
    if i >= |Routes| then None
    else if Matches(Routes[i].0, req, baseOrigin) then Some(Routes[i].1)
    else FirstMatchFrom(req, baseOrigin, i + 1)
  }

  /** The runtime route that handles a request (None: left to precaching and
      the offline fallback, or to the network for a method no route is
      registered for). */
  function Classify(req: FetchRequest, baseOrigin: string): Option<Handler> {
    if req.verb != RouteMethod then None else FirstMatchFrom(req, baseOrigin, 0)
  }

  /** The first matching route wins. */
  lemma {:induction false} FirstMatchWins(req: FetchRequest, baseOrigin: string, i: nat, k: nat)
    requires i <= k < |Routes|
    requires forall j :: i <= j < k ==> !Matches(Routes[j].0, req, baseOrigin)
    requires Matches(Routes[k].0, req, baseOrigin)
    ensures FirstMatchFrom(req, baseOrigin, i) == Some(Routes[k].1)
    decreases k - i
  {
    if i < k {
      FirstMatchWins(req, baseOrigin, i + 1, k);
    }
  }

  /** Google Fonts GET requests are served cache-first from 'google-fonts'. */
  lemma GoogleFontsCacheFirst(req: FetchRequest, baseOrigin: string)
    requires req.verb == "GET"
    requires req.origin == GoogleFontsOrigin || req.origin == GoogleStaticOrigin
    ensures Classify(req, baseOrigin) == Some(Handler(CacheFirst, "google-fonts", None))
  {
  }

  /** The origin is not claimed by the three static-asset routes registered before the API routes. */
  predicate NotStaticAssetOrigin(origin: string) {
    && origin != GoogleFontsOrigin && origin != GoogleStaticOrigin && origin != CdnjsOrigin
    && !Includes(origin, "fontawesome") && !Includes(origin, "avatars.githubusercontent")
  }

  /** On the API origin exactly one of the two API callbacks matches:
      the JSON one unless the destination is 'image'. */
  lemma ApiCallbacksExclusive(req: FetchRequest, baseOrigin: string)
    requires req.origin == baseOrigin
    ensures Matches(ApiJson, req, baseOrigin) != Matches(ApiImages, req, baseOrigin)
    ensures Matches(ApiImages, req, baseOrigin) <==> req.destination == "image"
  {
  }

  /** API GET requests go network-first to 'stories-api', API images
      stale-while-revalidate to 'stories-api-images'; the API's POST and
      DELETE calls (register, login, new report, subscribe, unsubscribe,
      send to me) fall under no route and reach the network unhandled. */
  lemma {:induction false} ApiRouting(req: FetchRequest, baseOrigin: string)
    requires req.origin == baseOrigin && NotStaticAssetOrigin(baseOrigin)
    ensures req.verb == "GET" && req.destination != "image" ==>
              Classify(req, baseOrigin) == Some(Handler(NetworkFirst, "stories-api", None))
    ensures req.verb == "GET" && req.destination == "image" ==>
              Classify(req, baseOrigin) == Some(Handler(StaleWhileRevalidate, "stories-api-images", None))
    ensures req.verb != "GET" ==> Classify(req, baseOrigin) == None
  {
    if req.verb == "GET" {
      if req.destination != "image" {
        FirstMatchWins(req, baseOrigin, 0, 3);
      } else {
        FirstMatchWins(req, baseOrigin, 0, 4);
      }
    }
  }

  /** Only GET requests are ever handled by a runtime route. */
  lemma NonGetUnrouted(req: FetchRequest, baseOrigin: string)
    ensures Classify(req, baseOrigin).Some? ==> req.verb == "GET"
  {
  }

  /** Map-tile GET requests are served cache-first from 'maptiler-api'. */
  lemma {:induction false} MapTilesCacheFirst(req: FetchRequest, baseOrigin: string)
    requires req.verb == "GET"
    requires Includes(req.origin, "maptiler") && NotStaticAssetOrigin(req.origin) && req.origin != baseOrigin
    ensures Classify(req, baseOrigin) == Some(Handler(CacheFirst, "maptiler-api", None))
  {
    FirstMatchWins(req, baseOrigin, 0, 5);
  }

  /** Whether the handler's plugin admits a response of this status (without a
      plugin the strategy's own rules apply, which are not modelled). */
  predicate PluginAdmits(h: Handler, status: int) {
    match h.cacheableStatuses
    case None => true
    case Some(ok) => status in ok
  }

  /** The avatar route caches only opaque (0) and 200 responses of GET requests. */
  lemma {:induction false} AvatarsCacheOnlyOkResponses(req: FetchRequest, baseOrigin: string, status: int)
    requires req.verb == "GET"
    requires Includes(req.origin, "avatars.githubusercontent")
    requires req.origin != GoogleFontsOrigin && req.origin != GoogleStaticOrigin && req.origin != CdnjsOrigin
    requires !Includes(req.origin, "fontawesome")
    ensures Classify(req, baseOrigin).Some? && Classify(req, baseOrigin).value.cacheName == "avatars-api"
    ensures PluginAdmits(Classify(req, baseOrigin).value, status) <==> status == 0 || status == 200
  {
    FirstMatchWins(req, baseOrigin, 0, 2);
  }

  // ===== push =====

  /** `event.data`: absent, or present with `.json()` either parsing to a value or throwing. */
  datatype PushPayload = NoPayload | Payload(parsed: Option<Value>)

  /** The arguments of `showNotification(title, options)`. */
  datatype Notification = Notification(title: Value, body: Value, icon: string, badge: string, url: Value)

  const DefaultTitle: string := "Notifikasi Baru"
  const DefaultBody: string := "Anda memiliki notifikasi baru"
  const IconPath: string := "/images/icons/icon-192x192.png"

  /** The value of `data` after the try/catch of the push handler. */
  function PushData(p: PushPayload): (data: Value)
    ensures p == NoPayload || p == Payload(None) ==> data == Obj(map[])
    ensures p.Payload? && p.parsed.Some? ==> data == p.parsed.value
  {
    match p
    case NoPayload => Obj(map[])
    case Payload(None) => Obj(map[])
    case Payload(Some(v)) => v
  }

  /** Title, body and redirect URL each fall back to its own default when the
      payload's field is falsy; reading them throws when `data` is nullish. */
  function NotificationFor(data: Value): (r: Completion<Notification>)
    ensures r.Abrupt? <==> Nullish(data)
    ensures r.Normal? ==>
              && r.value.title == (if Truthy(Prop(data, "title")) then Prop(data, "title") else Str(DefaultTitle))
              && r.value.body == (if Truthy(Prop(data, "body")) then Prop(data, "body") else Str(DefaultBody))
              && r.value.url == (if Truthy(Prop(data, "url")) then Prop(data, "url") else Str("/"))
              && r.value.icon == IconPath && r.value.badge == IconPath
  {
    var title :- Get(data, "title");
    Normal(Notification(Or(title, Str(DefaultTitle)), Or(Prop(data, "body"), Str(DefaultBody)),
                        IconPath, IconPath, Or(Prop(data, "url"), Str("/"))))
  }

  /** The push handler as written: `data` starts as `{}`, is reassigned in the
      try and reset in the catch, then its fields are read outside the try.
      `Normal(n)`: `n` is shown; `Abrupt`: the listener throws and nothing is shown. */
  method OnPush(p: PushPayload) returns (shown: Completion<Notification>)
    ensures shown == NotificationFor(PushData(p))
    ensures p == Payload(Some(Null)) ==> shown.Abrupt?
  {
    var data := Obj(map[]);
    match p {
      case NoPayload =>
        data := Obj(map[]);
      case Payload(None) =>
        data := Obj(map[]);
      case Payload(Some(v)) =>
        data := v;
    }
    var title :- Get(data, "title");
    shown := Normal(Notification(Or(title, Str(DefaultTitle)), Or(Prop(data, "body"), Str(DefaultBody)),
                                 IconPath, IconPath, Or(Prop(data, "url"), Str("/"))));
  }

  /** The payload `null` is valid JSON: as written, `data` becomes null and
      reading `data.title` throws, so no notification is shown. */
  lemma NullPayloadShowsNothing()
    ensures NotificationFor(PushData(Payload(Some(Null)))).Abrupt?
  {
  }

  const DefaultNotification: Notification :=
    Notification(Str(DefaultTitle), Str(DefaultBody), IconPath, IconPath, Str("/"))

  /** The push handler as intended: a nullish parsed payload is treated like
      `{}`, so every push shows a notification. */
  function PushNotification(p: PushPayload): (n: Notification)
    ensures !Nullish(PushData(p)) ==> NotificationFor(PushData(p)) == Normal(n)
    ensures Nullish(PushData(p)) ==> n == DefaultNotification
    ensures p == NoPayload || p == Payload(None) || p == Payload(Some(Obj(map[]))) ==> n == DefaultNotification
    ensures Truthy(n.url)
  {
    var data := PushData(p);
    if Nullish(data) then DefaultNotification
    else
      Notification(Or(Prop(data, "title"), Str(DefaultTitle)), Or(Prop(data, "body"), Str(DefaultBody)),
                   IconPath, IconPath, Or(Prop(data, "url"), Str("/")))
  }

  // ===== notification click =====

  datatype WindowClient = WindowClient(url: string, focusable: bool)

  /** Focus the client at `index` of the matched list, or open a new window at `url`. */
  datatype ClickAction = Focus(index: nat) | OpenWindow(url: string)

  /** `event.notification.data?.url || '/'`, as the text `includes` and `openWindow` receive. */
  function ClickTarget(data: Value): (t: string)
    ensures !Truthy(if Nullish(data) then Undefined else Prop(data, "url")) ==> t == "/"
    ensures !Nullish(data) && Truthy(Prop(data, "url")) ==> t == ToText(Prop(data, "url"))
    ensures !Nullish(data) && Prop(data, "url").Str? && Truthy(Prop(data, "url")) ==> t == Prop(data, "url").s
  {
    var url := if Nullish(data) then Undefined else Prop(data, "url");
    ToText(Or(url, Str("/")))
  }

  predicate Claims(c: WindowClient, target: string) {
    Includes(c.url, target) && c.focusable
  }

  /** The click handler's loop: the first focusable window whose URL
      contains the target is focused; when there is none, exactly one window
      is opened, at the target. */
  method OnNotificationClick(data: Value, clients: seq<WindowClient>) returns (action: ClickAction)
    ensures action.Focus? ==>
              && action.index < |clients|
              && Claims(clients[action.index], ClickTarget(data))
              && forall j :: 0 <= j < action.index ==> !Claims(clients[j], ClickTarget(data))
    ensures action.OpenWindow? <==> forall j :: 0 <= j < |clients| ==> !Claims(clients[j], ClickTarget(data))
    ensures action.OpenWindow? ==> action.url == ClickTarget(data)
  {
    var target := ClickTarget(data);
    for i := 0 to |clients|
      invariant forall j :: 0 <= j < i ==> !Claims(clients[j], target)
    {
      if Includes(clients[i].url, target) && clients[i].focusable {
        return Focus(i);
      }
    }
    return OpenWindow(target);
  }

  /** A click on a notification this worker showed targets the URL it was shown with. */
  lemma ShownNotificationClickTarget(p: PushPayload)
    ensures var n := PushNotification(p);
            ClickTarget(Obj(map["url" := n.url])) == ToText(n.url)
  {
  }
}
