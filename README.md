# CityCare report pipeline — a Dafny model

CityCare is a single-page web application for reporting public-infrastructure
damage. A citizen uploads a description, one photo and a location. Reports are
listed on a home page with a map, each one can be opened, and it can be
bookmarked locally. A service worker caches runtime requests and shows push
notifications.

This project models the application's decision layer and proves properties of it:

- **Gateway** (`gateway.dfy`): the data module. Each exported call is a
  function of its arguments, the access token and how the HTTP exchange
  ended. The function gives the request the call issues, if any, and the
  object its promise resolves to. It covers:
  - registration's local check;
  - the login mapping;
  - the query string of the listing;
  - `ok = !json.error`;
  - the two record normalisations;
  - the comment stubs;
  - the token guard of the send call.
- **Service worker** (`service_worker.dfy`):
  - which runtime route claims a request;
  - the notification a push shows;
  - which window a click focuses or opens.
- **Home page and presenter** (`home.dfy`). The page is a class with:
  - the list container;
  - the two loaders;
  - the map's layers;
  - the picked marker and location;
  - a log of the calls the presenter makes on it.

  `initialGalleryAndMap` and `showReportsListMap` are proved against the
  traces they must produce.
- **New-report page and presenter** (`submission.dfy`):
  - the one-slot photo buffer;
  - the camera toggle;
  - the submit guard;
  - the form the presenter builds;
  - the success or failure it reports;
  - the fire-and-forget broadcast.
- **Report detail presenter** (`report_detail.dfy`): loading a report, and
  saving or removing its bookmark, with the button that follows each step.
- **Bookmark list presenter** (`bookmarks.dfy`):
  - the loader, then the empty, list or error screen;
  - each entry's caption fallback;
  - remove-then-re-render.
- **Supporting modules:**
  - `js.dfy`: JavaScript values and the evaluation rules the code relies on: truthiness, `??`, `||`, reads that throw on `null`/`undefined`, `String(x)` and `includes`.
  - `lists.dfy`: the filtering and mapping traversals.
  - `outcome.dfy`: how presenters read an `{ok, message}` answer.
  - `bookmark_store.dfy`: the bookmark store the presenters share.

Collaborators are inputs:
- the outcome of an HTTP exchange (`Upstream`);
- the awaited result of a data-module call (`Completion<Value>`, a value or a thrown error);
- a store fault (`Option<Exception>`);
- the clock reading;
- the names the data module exports.

Where the code and the system's design description disagree, the model
follows the code:
- **Map markers:** a report is "located" when both coordinates are truthy, not when they are non-null. A latitude of 0 therefore gets no marker (`Home.ZeroLatitudeDropped`).
- **Push with a `null` payload:** the push handler can throw, so no notification is shown (see Findings).
- **Upload with no network:** a store call that never reached the server is reported as uploaded (`Submission.UnreachedStoreReportedAsUploaded`).
- **Map with a nullish report:** building the map stops at the first nullish report (`Home.HomePage.InitialMap`).

## Model

| member | source | states |
|---|---|---|
| Js.Get | src/scripts/data/api.js:96 | A property read throws a TypeError exactly when the base is `null` or `undefined`; otherwise it yields the property. |
| Js.ErrorText | src/scripts/pages/bookmark/bookmark-presenter.js:38 | `${error}` of an Error is `name: message`, or only the non-empty part. |
| Js.IncludesAt | src/scripts/sw.js:40 | `s.includes(sub)` holds exactly when `sub` occurs at some position of `s`. |
| Lists.FirstNullish | src/scripts/pages/home/home-page.js:122-123 | The position of the first nullish element: everything before it is non-nullish. |
| Lists.FilterMapExact | src/scripts/pages/home/home-page.js:63-83 | A guarded accumulation yields one output per kept input, in increasing input order. A position is kept exactly when the guard keeps its element. |
| Lists.FilterMapAllKept | src/scripts/pages/home/home-page.js:63-83 | When the guard keeps every element, the output has the input's length and order. |
| Lists.FilterMapNoneKept | src/scripts/pages/home/home-page.js:63-83 | When the guard keeps no element, the output is empty. |
| Lists.MapOrThrow | src/scripts/data/api.js:99-108 | `map` over a list whose callback reads a property. It succeeds exactly when no element is nullish, with every image in order. Otherwise it throws the read error of the first nullish element. |
| Outcome.FailureMessage | src/scripts/pages/home/home-presenter.js:27-31 | A thrown error shows its message. A non-nullish answer shows its `message` exactly when `ok` is falsy, and is accepted exactly when `ok` is truthy. |
| Gateway.Acknowledge | src/scripts/data/api.js:44 | `{...json, ok: !json.error}`: it throws only for a nullish body, sets `ok` to the negated error flag and keeps every other own property. |
| Gateway.Settle | src/scripts/data/api.js:43-46 | `ok` is truthy exactly when the server answered with a body whose `error` flag is falsy. A rejected exchange yields `ok: false` with the error's message. |
| Gateway.Register | src/scripts/data/api.js:27-48 | An empty field or a password shorter than 8 gives `ok: false`, `error: true` and the fixed message, with no request. Otherwise it posts exactly name, email and password, and settles. |
| Gateway.Login | src/scripts/data/api.js:51-76 | Posts email and password. It is ok exactly when the body has a falsy error flag and a non-nullish `loginResult`, and then gives token, userId and name. A server error gives its message; a rejection gives the caught message; a nullish body or a nullish `loginResult` gives the message of the TypeError its read throws. |
| Gateway.QueryParams | src/scripts/data/api.js:83-85 | `page`, `size` and `location` appear in that order, each exactly when defined. `location` is written as 1 or 0. |
| Gateway.BuildQueryParams | src/scripts/data/api.js:81-85 | The successive appends build exactly `QueryParams`. |
| Gateway.QueryText | src/scripts/data/api.js:87 | The query text is empty exactly when there are no parameters. |
| Gateway.ListPath | src/scripts/data/api.js:87 | `?` and the query are appended only for a non-empty query. |
| Gateway.GetAllReports | src/scripts/data/api.js:79-116 | The request carries the query path and the bearer header. `ok` holds exactly when the error flag is falsy and `listStory` is an array of non-nullish stories. Every other case, exceptions included, yields `data: []`, with the message of the upstream answer, of the caught exception, or of the TypeError a nullish body or a nullish story throws. On success there is one normalised record per story, in order. |
| Gateway.ListItemDefaults | src/scripts/data/api.js:99-108 | The normalised item keeps `id`. Title and description are the story's description. There is one image exactly when `photoUrl` is truthy. Coordinates become null only when null or undefined, so 0 is kept. The reporter is 'Unknown' only when `name` is null or undefined. |
| Gateway.StoryRecordDefaults | src/scripts/data/api.js:99-108 | The same defaults, for one normalised record. |
| Gateway.GetReportById | src/scripts/data/api.js:118-147 | It is ok exactly when the error flag is falsy and `story` is truthy. The coordinates are nested under `location` and the name under `reporter`; `evidenceImages` is `[photoUrl]` when `photoUrl` is truthy and `[]` otherwise. A failure carries no `data`, and a rejected answer passes on its own `message`. |
| Gateway.StoreNewReport | src/scripts/data/api.js:149-164 | Posts the form with the bearer header and settles. A rejected exchange yields an object with no `error` property. |
| Gateway.CommentsList | src/scripts/data/api.js:167-169 | No request is made. The answer is `ok: true` with `data: []` and 'Comment feature not available'. |
| Gateway.StoreComment | src/scripts/data/api.js:171-173 | No request is made. The answer is `ok: false` with 'Comment feature not available'. |
| Gateway.SubscribePush | src/scripts/data/api.js:178-197 | Posts endpoint and keys to the subscribe path and settles. |
| Gateway.UnsubscribePush | src/scripts/data/api.js:200-219 | Sends DELETE to the subscribe path with the endpoint and settles. |
| Gateway.SendReportToMe | src/scripts/data/api.js:221-240 | Without a token it answers 'Unauthorized' and makes no request. Otherwise it posts the report id and settles, with `error: true` on a rejection. |
| ServiceWorker.FirstMatchWins | src/scripts/sw.js:29-75 | A request is handled by the first registered route whose callback matches. |
| ServiceWorker.GoogleFontsCacheFirst | src/scripts/sw.js:29-34 | The two Google Fonts origins are handled CacheFirst from 'google-fonts'. |
| ServiceWorker.ApiCallbacksExclusive | src/scripts/sw.js:54-69 | On the API origin exactly one of the two API callbacks matches. The image callback matches exactly when the destination is 'image'. |
| ServiceWorker.ApiRouting | src/scripts/sw.js:54-69 | An API GET request goes NetworkFirst to 'stories-api', and an API GET image StaleWhileRevalidate to 'stories-api-images'. Every other method on the API origin falls under no route, since the routes are registered for the default method GET. |
| ServiceWorker.NonGetUnrouted | src/scripts/sw.js:28-69 | Only a GET request is ever handled by a runtime route. |
| ServiceWorker.MapTilesCacheFirst | src/scripts/sw.js:72-75 | A 'maptiler' origin not claimed by an earlier route is handled CacheFirst from 'maptiler-api'. |
| ServiceWorker.AvatarsCacheOnlyOkResponses | src/scripts/sw.js:45-51 | Avatar requests go to 'avatars-api', whose plugin caches a response exactly when its status is 0 or 200. |
| ServiceWorker.PushData | src/scripts/sw.js:89-94 | An absent payload or one that fails to parse gives `{}`. Otherwise `data` is the parsed value. |
| ServiceWorker.NotificationFor | src/scripts/sw.js:96-104 | Title, body and url each fall back to their own default when falsy, and the icon and badge are fixed. Reading the fields throws exactly when `data` is nullish. |
| ServiceWorker.OnPush | src/scripts/sw.js:86-107 | The handler as written shows `NotificationFor(PushData(p))`. A `null` JSON payload throws. |
| ServiceWorker.NullPayloadShowsNothing | src/scripts/sw.js:91-96 | Counterexample: the payload `null` makes the handler throw, so nothing is shown. |
| ServiceWorker.PushNotification | src/scripts/sw.js:89-104 | Corrected handler: it agrees with the as-written one whenever that shows something. Otherwise it shows the default notification, and its url is always truthy. |
| ServiceWorker.ClickTarget | src/scripts/sw.js:112 | The click target is the text of the notification's url when truthy (the url itself for a string), else '/'. |
| ServiceWorker.OnNotificationClick | src/scripts/sw.js:110-124 | It focuses the first window whose URL contains the target and that can be focused. A new window is opened at the target exactly when there is no such window. |
| ServiceWorker.ShownNotificationClickTarget | src/scripts/sw.js:102-112 | A click on a shown notification targets the url it was shown with. |
| Home.ItemFor | src/scripts/pages/home/home-page.js:71-80 | Each falsy field takes its default, in both directions: '' for text, null for a coordinate (0 included) and 'Unknown' for the reporter. Images that are not an array become none. |
| Home.ListFor | src/scripts/pages/home/home-page.js:50-92 | The outcome is exactly one of three: the 'Invalid data format received' error for a non-array, the empty state for an empty array, or the item list for a non-empty array. |
| Home.ListedReports | src/scripts/pages/home/home-page.js:63-83 | A non-empty array lists exactly one item per truthy entry, in input order. |
| Home.FalsyReportsRenderEmptyList | src/scripts/pages/home/home-page.js:57-67 | A non-empty array of falsy entries renders an empty list, not the empty state. |
| Home.MarkerFor | src/scripts/pages/home/home-page.js:123-134 | A marker exists exactly when both coordinates are truthy. It sits at those coordinates and its popup links to `#/reports/{id}`. |
| Home.MapLayers | src/scripts/pages/home/home-page.js:121-137 | The map holds only report markers: one per located report before the first nullish one, in report order, and none for the reports from the nullish one on. |
| Home.LocatedReportsMapped | src/scripts/pages/home/home-page.js:121-137 | With no nullish report and both coordinates truthy everywhere, the map holds one marker per report, in order, each at the report's coordinates and linking to its detail route. |
| Home.ZeroLatitudeDropped | src/scripts/pages/home/home-page.js:123 | A zero latitude survives the gateway's `??` (api.js line 104). The page's `||` and `&&` then drop it: the item's latitude is null and there is no marker. |
| Home.Without | src/scripts/pages/home/home-page.js:152-154 | Removing the current marker keeps every other layer, drops that one, and never lengthens the layers. |
| Home.SetMarkerLeavesOnePicked | src/scripts/pages/home/home-page.js:151-160 | After `setMarker` the only picked marker is the new one, it is last, and the report markers are unchanged. |
| Home.GalleryTrace | src/scripts/pages/home/home-presenter.js:21-44 | The list loader is shown first and hidden last, on every path. A failure gives exactly one error render. Success gives `initialMap(reports)` and then `populateReportsList(message, reports)` with the same list. |
| Home.GalleryList | src/scripts/pages/home/home-presenter.js:27-37 | After loading, the list shows the failure message, or what `populateReportsList` renders. Non-array data is treated as `[]`. |
| Home.ListingFailureShowsMessage | src/scripts/pages/home/home-presenter.js:27-31 | A failed listing exchange shows its message and never creates the map. |
| Home.StoryRecordsListed | src/scripts/pages/home/home-page.js:63-83 | Normalised records are never nullish, so the page lists one item per record, in order, or the empty state for none. |
| Home.AcceptedListingShown | src/scripts/pages/home/home-presenter.js:33-37 | An accepted listing renders one item per upstream story, in order, or the empty state for none. Its map click handler is registered. |
| Home.HomePage.constructor | src/scripts/pages/home/home-page.js:10-11 | A fresh page: blank list, no map, no marker, no presenter. |
| Home.HomePage.AfterRender | src/scripts/pages/home/home-page.js:41-48 | Creates a presenter on the page and loads the gallery: the calls are the gallery trace, the list is the gallery list and its loader ends hidden. On success the map holds `MapLayers` of the reports and is clickable exactly when none is nullish; on failure the map is as before. The picked marker and the location stay. |
| Home.HomePage.PopulateReportsList | src/scripts/pages/home/home-page.js:50-92 | The reducer loop leaves the list equal to `ListFor(reports)`. |
| Home.HomePage.PopulateReportsListEmpty | src/scripts/pages/home/home-page.js:94-96 | The list shows the empty state. |
| Home.HomePage.PopulateReportsListError | src/scripts/pages/home/home-page.js:98-100 | The list shows the given message. |
| Home.HomePage.InitialMap | src/scripts/pages/home/home-page.js:105-149 | The `forEach` loop creates the map with `MapLayers(reports)`. The click handler is registered exactly when no report is nullish. |
| Home.HomePage.SetMarker | src/scripts/pages/home/home-page.js:151-160 | The previous picked marker is removed and the new one added. It becomes current, `selectedLocation` is (lat, lng), and "every picked marker is the current one" is preserved. |
| Home.HomePage.ShowMapLoading | src/scripts/pages/home/home-page.js:162-164 | Touches only the map loader. |
| Home.HomePage.HideMapLoading | src/scripts/pages/home/home-page.js:166-168 | Touches only the map loader. |
| Home.HomePage.ShowLoading | src/scripts/pages/home/home-page.js:170-173 | Touches only the list loader. |
| Home.HomePage.HideLoading | src/scripts/pages/home/home-page.js:175-177 | Touches only the list loader. |
| Home.HomePresenter.constructor | src/scripts/pages/home/home-presenter.js:5-8 | The presenter drives the given view. |
| Home.HomePresenter.ShowReportsListMap | src/scripts/pages/home/home-presenter.js:10-19 | The map loader brackets `initialMap` and ends hidden. The map holds `MapLayers(reports)` and is clickable exactly when no report is nullish. The list, the picked marker, the location and the presenter stay. |
| Home.HomePresenter.LoadGallery | src/scripts/pages/home/home-presenter.js:23-40 | The `try` block: one error render on failure; otherwise the map and then the list, with the same reports. The loaders, the picked marker and the location are untouched. |
| Home.HomePresenter.InitialGalleryAndMap | src/scripts/pages/home/home-presenter.js:21-44 | The view receives exactly `GalleryTrace` and the list ends as `GalleryList`. The map is built only on success; nothing else on the page changes. |
| Submission.BlobOf | src/scripts/pages/new/new-page.js:184-185 | A string image is converted to a PNG blob; any other image is kept. |
| Submission.ReportForm | src/scripts/pages/new/new-presenter.js:13-17 | The form holds exactly description, photo, lat and lon, once each, in that order. |
| Submission.PostFailure | src/scripts/pages/new/new-presenter.js:21-24 | Failure is reported exactly when the call threw, the response is falsy, or `error` is truthy. The message is `response.message` when truthy, else 'Gagal upload story.'. |
| Submission.PostTrace | src/scripts/pages/new/new-presenter.js:10-35 | The submit loader is shown first and hidden last. Between them comes exactly one of failure (with its message) and success (with the server's `message`), success exactly when there is no failure. |
| Submission.NotifyToAllUser | src/scripts/pages/new/new-presenter.js:37-49 | Never throws. True exactly when the broadcast member exists, returns, and answers a truthy `ok`. |
| Submission.BroadcastNeverSucceeds | src/scripts/pages/new/new-presenter.js:39 | The data module does not export the broadcast call, so the notification to all users is never sent. |
| Submission.UnreachedStoreReportedAsUploaded | src/scripts/pages/new/new-presenter.js:21 | A store call that never reached the server (api.js line 162) has no `error` property, so it is reported as a success. |
| Submission.ServerAnswerReported | src/scripts/pages/new/new-presenter.js:21-28 | A server answer is reported as a failure exactly when its error flag is truthy, with its message or the fallback. |
| Submission.NewPage.constructor | src/scripts/pages/new/new-page.js:7-12 | The camera is closed, the buffer is empty and there is no presenter. |
| Submission.NewPage.AfterRender | src/scripts/pages/new/new-page.js:88-95 | Creates the presenter and resets the buffer to empty. |
| Submission.NewPage.AddPicture | src/scripts/pages/new/new-page.js:183-188 | The buffer becomes exactly one picture, the newest, with the clock reading as its id. |
| Submission.NewPage.RenderPictures | src/scripts/pages/new/new-page.js:190-204 | The shown picture is the first staged one, or none. |
| Submission.NewPage.RemovePicture | src/scripts/pages/new/new-page.js:205-208 | Clicking the shown picture empties the buffer and the list. |
| Submission.NewPage.FileChosen | src/scripts/pages/new/new-page.js:141-145 | A chosen file becomes the only staged picture. No file leaves the buffer unchanged. |
| Submission.NewPage.PictureTaken | src/scripts/pages/new/new-page.js:176-180 | A capture becomes the only staged picture and is shown. |
| Submission.NewPage.ToggleCamera | src/scripts/pages/new/new-page.js:152-174 | The toggle flips `isCameraOpen`. Opening constructs the camera the first time only, and the camera is built at most once. |
| Submission.NewPage.Submit | src/scripts/pages/new/new-page.js:126-139 | An empty description or an empty buffer is alerted and nothing else changes. Otherwise the staged blob is posted with the description and coordinates inside the submit loader; a failure alerts its message and keeps the route, a success alerts the upload and goes to '/'. Only the alerts, the call log, the button and the route can change. |
| Submission.NewPage.StoreSuccessfully | src/scripts/pages/new/new-page.js:211-214 | Alerts 'Story berhasil diunggah!' and navigates to '/'. |
| Submission.NewPage.StoreFailed | src/scripts/pages/new/new-page.js:216-218 | Alerts the message. |
| Submission.NewPage.ShowSubmitLoadingButton | src/scripts/pages/new/new-page.js:220-226 | The submit button is disabled. |
| Submission.NewPage.HideSubmitLoadingButton | src/scripts/pages/new/new-page.js:228-230 | The submit button is restored. |
| Submission.NewPresenter.constructor | src/scripts/pages/new/new-presenter.js:5-8 | The presenter drives the given view. |
| Submission.NewPresenter.ReportOutcome | src/scripts/pages/new/new-presenter.js:19-31 | The answer handling: exactly one outcome call. The broadcast is started only on success, and its answer is not used. |
| Submission.NewPresenter.PostNewReport | src/scripts/pages/new/new-presenter.js:10-35 | The appends build `ReportForm`, the view receives `PostTrace`, and the button ends restored. The broadcast is started exactly on success, and its answer never changes what is reported. |
| BookmarkStore.KeyOf | src/scripts/pages/report/report-detail-presenter.js:38 | A record is stored under its `id` when it is an object whose id is a string or number. |
| BookmarkStore.Lookup | src/scripts/pages/report/report-detail-presenter.js:57 | A read finds a record exactly when one is stored under the key. |
| BookmarkStore.UpsertedLookup | src/scripts/pages/report/report-detail-presenter.js:38 | After a put, its key finds the record and every other key finds what it found before. |
| BookmarkStore.UpsertedConsistent | src/scripts/pages/report/report-detail-presenter.js:38 | A put keeps every record keyed and the keys distinct. |
| BookmarkStore.UpsertedSize | src/scripts/pages/report/report-detail-presenter.js:38 | A put grows the store by one exactly when its key was new. |
| BookmarkStore.RemovedLookup | src/scripts/pages/report/report-detail-presenter.js:48 | After a delete, its key finds nothing and every other key finds what it found before. |
| BookmarkStore.RemovedConsistent | src/scripts/pages/report/report-detail-presenter.js:48 | A delete keeps every record keyed and the keys distinct. |
| BookmarkStore.RemovedSize | src/scripts/pages/report/report-detail-presenter.js:48 | A delete shrinks the store by one exactly when the key was present, and otherwise changes nothing. |
| BookmarkStore.PutThenGet | src/scripts/pages/report/report-detail-presenter.js:38 | After a put, a read of the key finds the record and reads of other keys are unchanged. The store stays keyed uniquely and grows exactly when the key was new. |
| BookmarkStore.RemoveThenGet | src/scripts/pages/report/report-detail-presenter.js:48 | After a delete, a read of the key finds nothing and reads of other keys are unchanged. The store shrinks exactly when the key was present. |
| BookmarkStore.Read | src/scripts/pages/report/report-detail-presenter.js:57 | `getStoryById`: a store fault, a key error for an invalid id, or the stored record. |
| BookmarkStore.Put | src/scripts/pages/report/report-detail-presenter.js:38 | `putStory`: a fault or a record without a key changes nothing and throws. Otherwise the record is upserted and its key returned. |
| BookmarkStore.Delete | src/scripts/pages/report/report-detail-presenter.js:48 | `removeStory`: a fault or an invalid id changes nothing and throws. Otherwise the key is removed. |
| BookmarkStore.Database.PutStory | src/scripts/pages/report/report-detail-presenter.js:38 | The store's new state and result are `Put` of the old state, and the store stays consistent. |
| BookmarkStore.Database.RemoveStory | src/scripts/pages/report/report-detail-presenter.js:48 | The store's new state and result are `Delete` of the old state, and the store stays consistent. |
| ReportDetail.ButtonFor | src/scripts/pages/report/report-detail-presenter.js:61-67 | Exactly one button: remove when the lookup finds a record, save otherwise. A failed lookup throws. |
| ReportDetail.ButtonTracksStore | src/scripts/pages/report/report-detail-presenter.js:56-67 | The remove button is shown exactly when the store holds a record for the id. |
| ReportDetail.DetailTrace | src/scripts/pages/report/report-detail-presenter.js:14-33 | The loader is shown first and hidden last. A failure shows its message with no populate and no lookup. An ok answer is populated and then gets the remove button when the lookup finds a truthy record, the save button when it finds a falsy one, and the lookup's error message when it throws. |
| ReportDetail.UnreachedDetailShowsError | src/scripts/pages/report/report-detail-presenter.js:19-22 | A fetch that never reached the server shows its error and never asks the store. |
| ReportDetail.SaveOutcome | src/scripts/pages/report/report-detail-presenter.js:35-44 | `response.data` is put without checking `ok`. A rejected fetch, a nullish answer or a failed put shows that error's message and leaves the store unchanged. A successful put stores the record and shows the success message, then the current button, or the failure message when the lookup after it throws (the record stays stored). |
| ReportDetail.SavedReportShowsRemoveButton | src/scripts/pages/report/report-detail-presenter.js:37-40 | Saving the report under its own id stores it and switches the button to remove. |
| ReportDetail.NotOkDetailIsNotSaved | src/scripts/pages/report/report-detail-presenter.js:37-38 | A fetch that was not ok puts `undefined`. The store refuses it and only the failure is shown. |
| ReportDetail.RemoveOutcome | src/scripts/pages/report/report-detail-presenter.js:46-54 | Deletes the presenter's own id. A successful delete shows the success message, then the current button, or the failure message when the lookup after it throws (the record stays removed). A failed delete shows its error and leaves the store unchanged. |
| ReportDetail.RemovedReportShowsSaveButton | src/scripts/pages/report/report-detail-presenter.js:48-50 | Removing the bookmark drops it and switches the button to save. |
| ReportDetail.ReportDetailPresenter.constructor | src/scripts/pages/report/report-detail-presenter.js:8-12 | The presenter is bound to its report id, view and store. |
| ReportDetail.ReportDetailPresenter.ShowSaveButton | src/scripts/pages/report/report-detail-presenter.js:61-67 | Renders `ButtonFor` of the current store, or passes the lookup's error back without rendering. |
| ReportDetail.ReportDetailPresenter.ShowReportDetail | src/scripts/pages/report/report-detail-presenter.js:14-33 | The view receives exactly `DetailTrace`. `report` is set to the data exactly when the fetch was ok. |
| ReportDetail.ReportDetailPresenter.SaveReport | src/scripts/pages/report/report-detail-presenter.js:35-44 | The view calls and the new store equal `SaveOutcome`. |
| ReportDetail.ReportDetailPresenter.RemoveReport | src/scripts/pages/report/report-detail-presenter.js:46-54 | The view calls and the new store equal `RemoveOutcome`. |
| Bookmarks.EntryFor | src/scripts/pages/bookmark/bookmark-presenter.js:45-60 | Each entry carries its `data-id` and a `#/reports/{id}` link. The caption is `title ?? description ?? 'Tanpa Judul'` and the subtitle `description ?? ''`. |
| Bookmarks.ScreenFor | src/scripts/pages/bookmark/bookmark-presenter.js:14-18 | A falsy or zero-length result gives the empty screen. A list of non-nullish stories gives one entry per story, in order. Any other result gives the error screen: the text of reading `id` of the first nullish story, or `stories.map is not a function` for a non-array. |
| Bookmarks.InitScreens | src/scripts/pages/bookmark/bookmark-presenter.js:8-22 | The loader comes before the store is read. A store exception gives the error screen with its text. |
| Bookmarks.StoredStoriesListed | src/scripts/pages/bookmark/bookmark-presenter.js:42-62 | An empty store shows the empty screen. Otherwise there is one entry per stored story, in store order. |
| Bookmarks.RemoveClickDropsStory | src/scripts/pages/bookmark/bookmark-presenter.js:65-72 | After a remove click the story is gone. The re-rendered list has one entry fewer, or the empty screen once none is left. |
| Bookmarks.BookmarkPresenter.constructor | src/scripts/pages/bookmark/bookmark-presenter.js:4-6 | The presenter starts with nothing rendered. |
| Bookmarks.BookmarkPresenter.Init | src/scripts/pages/bookmark/bookmark-presenter.js:8-22 | The container receives exactly `InitScreens` of the current store. |
| Bookmarks.BookmarkPresenter.RemoveClicked | src/scripts/pages/bookmark/bookmark-presenter.js:67-71 | Deletes the clicked id, then re-runs `init`. A failed delete renders nothing. |

## Left out

- Timeouts: `fetchWithTimeout`'s abort timer is not modelled; a timeout is one more rejected exchange (`Gateway.Failed`).
- Transport: `fetch`, `res.json()`, `JSON.stringify`, `FormData`, headers other than `Authorization`, and `URLSearchParams` percent-encoding are foreign. Requests are datatypes and the query is a list of key/value pairs.
- Workbox internals: what CacheFirst, NetworkFirst and StaleWhileRevalidate do, precaching, the offline fallback and `clientsClaim` are library code. Only the route a request falls under is modelled, including that the routes are registered for the default method GET, so other methods fall under none.
- ServiceWorker.PluginAdmits: a handler without the cacheable-response plugin admits every status here, because the strategy's own caching rules are library code.
- Rendering and devices: the DOM, templates, Leaflet, `alert`, `location.hash`, the camera, `URL.createObjectURL` and `console` are replaced by view states and call logs. A page's `render()` markup is not modelled.
- Floats: numbers are reals. `parseFloat`, `toFixed(6)`, NaN and the new page's map handlers are not modelled; coordinates are opaque values passed to the submit handler.
- Js.ToText: a non-integral number is written through its floor (so -1.5 becomes "-2" where JavaScript writes "-1.5"), because JavaScript's float-to-text conversion is not modelled.
- Js.Prop and Gateway.Register: a string's `length` (and so the `password.length < 8` check of `register`) is the length of the character sequence, not a count of UTF-16 code units, because no encoding is modelled.
- Gateway.SubscribePush: takes the endpoint and the two keys as separate values. A subscription object without `keys`, which makes the parameter destructuring throw a TypeError and send no request, is not modelled.
- Gateway.Acknowledge: spreading an array or a string (its index properties) is not modelled, because no server answer has that shape.
- The bookmark store: `src/scripts/data/database.js` is not part of this model. The store is modelled on these assumptions:
  - records are kept under `id`, a string or number, in insertion order;
  - a record without a valid key, or an invalid id, throws a DataError whose wording is assumed;
  - any call can fail through a fault input.
- Token storage: `getAccessToken` is an input (`Option<string>`), and `getLogout` is not modelled.
- Concurrency: asynchronous calls are sequential steps. The un-awaited broadcast is modelled as finished before `storeSuccessfully`, which cannot change the reported outcome. Races between overlapping renders are not modelled.
- `src/scripts/pages/app.js`, `src/scripts/index.js` and `src/scripts/pages/bookmark/bookmark-page.js` are routing shell, bootstrapping and a thin wrapper, and are not modelled.
- Home.HomePage.InitialMap: an exception thrown by Leaflet itself is not modelled, only the throw of a nullish report's read.
- Home.HomePage.PopulateReportsList: the catch for a template that throws ('Error displaying reports') is not modelled, because the templates are not part of this model.
- Submission.NewPage.ToggleCamera: a camera launch that fails is not modelled. The repeated take-button listeners are only counted.
- `getCommentsList` of the detail presenter (a constant `[]`), `showReportDetailMap` (an unfinished stub) and `notification.close()` have no observable effect on the modelled state and are not modelled.

## Findings

| source | as written | input that shows it | evidently intended | confidence | as-written member | corrected member |
|---|---|---|---|---|---|---|
| src/scripts/sw.js:91-96 | The push handler replaces `data` with whatever `event.data.json()` parses, then reads `data.title` outside the `try`. | A push whose payload is the JSON text `null`: `data` becomes `null`, reading `data.title` throws, and no notification is shown. | Every push shows a notification, and a payload that is not an object falls back to the defaults. | not executed | ServiceWorker.OnPush, ServiceWorker.NullPayloadShowsNothing | ServiceWorker.PushNotification |
