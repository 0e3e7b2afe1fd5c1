/** The home page (src/scripts/pages/home/home-page.js) and its presenter
    (home-presenter.js): the report list, the report markers on the map, the
    picked location, the two loaders, and the order in which the presenter
    drives them. */
module Home {
  import opened Js
  import opened Lists
  import opened Outcome
  import Gateway

  /** The fields the list template receives for one report. */
  datatype ReportItem = ReportItem(
    id: Value, title: Value, description: Value, evidenceImages: seq<Value>,
    latitude: Value, longitude: Value, createdAt: Value, reporterName: Value)

  /** What the list container shows. */
  datatype ListView = Blank | EmptyState | ErrorState(message: Value) | Items(items: seq<ReportItem>)

  /** A layer the page adds to the map: a report's marker with the link of its
      popup, or the marker of the picked location. */
  datatype Layer = ReportMarker(lat: Value, lng: Value, link: string) | PickedMarker(lat: Value, lng: Value)

  /** A view method invoked from outside the page, with its arguments. */
  datatype HomeCall =
    | ShowLoading
    | HideLoading
    | ShowMapLoading
    | HideMapLoading
    | InitialMap(reports: seq<Value>)
    | PopulateList(message: Value, listed: Value)
    | PopulateListEmpty
    | PopulateListError(message: Value)

  const InvalidFormatMessage: string := "Invalid data format received"

  /** The template fields of a truthy report: each falsy field is replaced by
      its default ('' for text, null for a coordinate, 'Unknown' for the
      reporter), and images that are not an array by none. */
  function ItemFor(report: Value): (item: ReportItem)
    ensures Truthy(Prop(report, "id")) ==> item.id == Prop(report, "id")
    ensures !Truthy(Prop(report, "id")) ==> item.id == Str("")
    ensures Truthy(Prop(report, "title")) ==> item.title == Prop(report, "title")
    ensures !Truthy(Prop(report, "title")) ==> item.title == Str("")
    ensures Truthy(Prop(report, "description")) ==> item.description == Prop(report, "description")
    ensures !Truthy(Prop(report, "description")) ==> item.description == Str("")
    ensures Prop(report, "evidenceImages").Arr? ==> item.evidenceImages == Prop(report, "evidenceImages").items
    ensures !Prop(report, "evidenceImages").Arr? ==> item.evidenceImages == []
    ensures Truthy(Prop(report, "latitude")) ==> item.latitude == Prop(report, "latitude")
    ensures !Truthy(Prop(report, "latitude")) ==> item.latitude == Null
    ensures Truthy(Prop(report, "longitude")) ==> item.longitude == Prop(report, "longitude")
    ensures !Truthy(Prop(report, "longitude")) ==> item.longitude == Null
    ensures Truthy(Prop(report, "createdAt")) ==> item.createdAt == Prop(report, "createdAt")
    ensures !Truthy(Prop(report, "createdAt")) ==> item.createdAt == Str("")
    ensures Truthy(Prop(report, "reporterName")) ==> item.reporterName == Prop(report, "reporterName")
    ensures !Truthy(Prop(report, "reporterName")) ==> item.reporterName == Str("Unknown")
  {
    var images := Prop(report, "evidenceImages");
    ReportItem(
      Or(Prop(report, "id"), Str("")),
      Or(Prop(report, "title"), Str("")),
      Or(Prop(report, "description"), Str("")),
      if images.Arr? then images.items else [],
      Or(Prop(report, "latitude"), Null),
      Or(Prop(report, "longitude"), Null),
      Or(Prop(report, "createdAt"), Str("")),
      Or(Prop(report, "reporterName"), Str("Unknown")))
  }

  /** The reducer's guard: a falsy entry contributes nothing. */
  function ItemChoice(report: Value): Option<ReportItem> {
    if Truthy(report) then Some(ItemFor(report)) else None
  }

  /** What `populateReportsList` renders for its `reports` argument. */
  function ListFor(reports: Value): (v: ListView)
    ensures v == ErrorState(Str(InvalidFormatMessage)) <==> !reports.Arr?
    ensures v == EmptyState <==> reports == Arr([])
    ensures v.Items? <==> reports.Arr? && |reports.items| > 0
  {
    if !reports.Arr? then ErrorState(Str(InvalidFormatMessage))
    else if |reports.items| == 0 then EmptyState
    else Items(FilterMap(reports.items, ItemChoice))
  }

  /** A non-empty array lists one item per truthy entry, in order. */
  lemma {:induction false} ListedReports(reports: seq<Value>)
    requires |reports| > 0
    ensures var v := ListFor(Arr(reports));
            var kept := KeptIndices(reports, ItemChoice);
            && v.Items?
            && |v.items| == |kept|
            && (forall k :: 0 <= k < |kept| ==> kept[k] < |reports| && v.items[k] == ItemFor(reports[kept[k]]))
            && (forall k, l :: 0 <= k < l < |kept| ==> kept[k] < kept[l])
            && (forall j :: 0 <= j < |reports| ==> (Truthy(reports[j]) <==> j in kept))
  {
    FilterMapExact(reports, ItemChoice);
  }

  /** A non-empty array of falsy entries renders an empty list rather than
      the empty-state message. */
  lemma {:induction false} FalsyReportsRenderEmptyList(reports: seq<Value>)
    requires |reports| > 0
    requires forall j :: 0 <= j < |reports| ==> !Truthy(reports[j])
    ensures ListFor(Arr(reports)) == Items([])
  {
    FilterMapNoneKept(reports, ItemChoice);
  }

  /** A report gets a marker when both its coordinates are truthy; its popup
      links to the report's detail route. */
  function MarkerFor(report: Value): (m: Option<Layer>)
    ensures m.Some? <==> Truthy(Prop(report, "latitude")) && Truthy(Prop(report, "longitude"))
    ensures m.Some? ==> m.value.ReportMarker? && m.value.lat == Prop(report, "latitude")
                        && m.value.lng == Prop(report, "longitude")
                        && m.value.link == "#/reports/" + ToText(Prop(report, "id"))
  {
    var lat := Prop(report, "latitude");
    var lng := Prop(report, "longitude");
    if Truthy(lat) && Truthy(lng) then Some(ReportMarker(lat, lng, "#/reports/" + ToText(Prop(report, "id"))))
    else None
  }

  /** The layers a fresh map holds after `initialMap(reports)`: the markers of
      the reports before the first nullish one, whose read throws inside the
      `forEach` and ends the `try`. There is one marker per located report
      among those, in report order, and nothing else. */
  function MapLayers(reports: seq<Value>): (ls: seq<Layer>)
    ensures forall i :: 0 <= i < |ls| ==> ls[i].ReportMarker?
    ensures var n := FirstNullish(reports);
            var kept := KeptIndices(reports[..n], MarkerFor);
            && |ls| == |kept|
            && (forall k :: 0 <= k < |kept| ==> kept[k] < n && MarkerFor(reports[kept[k]]) == Some(ls[k]))
            && (forall k, l :: 0 <= k < l < |kept| ==> kept[k] < kept[l])
            && (forall j :: 0 <= j < n ==> (MarkerFor(reports[j]).Some? <==> j in kept))
  {
    FilterMapExact(reports[..FirstNullish(reports)], MarkerFor);
    FilterMap(reports[..FirstNullish(reports)], MarkerFor)
  }

  /** A zero latitude survives the gateway's `??` and is then dropped by the
      page's `||` and `&&`: the list item has no latitude and the report no marker. */
  lemma ZeroLatitudeDropped(story: Value)
    requires Prop(story, "lat") == Num(0.0)
    ensures Prop(Gateway.StoryRecord(story), "latitude") == Num(0.0)
    ensures ItemFor(Gateway.StoryRecord(story)).latitude == Null
    ensures MarkerFor(Gateway.StoryRecord(story)) == None
  {
  }

  /** When no report is nullish and every report has both coordinates, the
      map holds exactly one marker per report, in order, each linking to that
      report's detail route. */
  lemma {:induction false} LocatedReportsMapped(reports: seq<Value>)
    requires forall j :: 0 <= j < |reports| ==>
               !Nullish(reports[j]) && Truthy(Prop(reports[j], "latitude")) && Truthy(Prop(reports[j], "longitude"))
    ensures |MapLayers(reports)| == |reports|
    ensures forall j :: 0 <= j < |reports| ==>
              MapLayers(reports)[j] == ReportMarker(Prop(reports[j], "latitude"), Prop(reports[j], "longitude"),
                                                    "#/reports/" + ToText(Prop(reports[j], "id")))
  {
    assert reports[..FirstNullish(reports)] == reports;
    FilterMapAllKept(reports, MarkerFor);
  }

  /** `s` without the layer `c` names. */
  function Without(s: seq<Layer>, c: Option<Layer>): (r: seq<Layer>)
    ensures c.None? ==> r == s
    ensures |r| <= |s|
    ensures forall i :: 0 <= i < |r| ==> r[i] in s && Some(r[i]) != c
    ensures forall x :: x in s && Some(x) != c ==> x in r
  {
    if |s| == 0 then []
    else (if Some(s[0]) == c then [] else [s[0]]) + Without(s[1..], c)
  }

  /** When every picked marker on the map is the current one, `setMarker`
      leaves exactly one picked marker, the new one, last, and the same report markers. */
  lemma SetMarkerLeavesOnePicked(layers: seq<Layer>, current: Option<Layer>, lat: Value, lng: Value)
    requires current.None? || current.value.PickedMarker?
    requires forall i :: 0 <= i < |layers| && layers[i].PickedMarker? ==> current == Some(layers[i])
    ensures var after := Without(layers, current) + [PickedMarker(lat, lng)];
            && after[|after| - 1] == PickedMarker(lat, lng)
            && (forall i :: 0 <= i < |after| - 1 ==> !after[i].PickedMarker?)
            && (forall x: Layer :: x.ReportMarker? ==> (x in after <==> x in layers))
  {
    var w := Without(layers, current);
    forall i | 0 <= i < |w| ensures !w[i].PickedMarker? {
      var j :| 0 <= j < |layers| && layers[j] == w[i];
    }
  }

  /** `Array.isArray(response.data) ? response.data : []` */
  function ReportsOf(response: Value): seq<Value> {
    if Prop(response, "data").Arr? then Prop(response, "data").items else []
  }

  /** The view calls of the `try` block of `initialGalleryAndMap`. */
  function LoadCalls(response: Completion<Value>): seq<HomeCall> {
    match FailureMessage(response)
    case Some(m) => [PopulateListError(m)]
    case None =>
      var rs := ReportsOf(response.value);
      [InitialMap(rs), PopulateList(Prop(response.value, "message"), Arr(rs))]
  }

  /** The view calls `initialGalleryAndMap` makes for the listing's outcome:
      the list loader is shown first and hidden last, and between them comes
      either one error render or the map followed by the list. */
  function GalleryTrace(response: Completion<Value>): (t: seq<HomeCall>)
    ensures |t| >= 3 && t[0] == ShowLoading && t[|t| - 1] == HideLoading
    ensures forall i :: 0 < i < |t| - 1 ==> t[i] != ShowLoading && t[i] != HideLoading
    ensures FailureMessage(response).Some? ==> t == [ShowLoading, PopulateListError(FailureMessage(response).value), HideLoading]
    ensures FailureMessage(response).None? ==>
              |t| == 4 && t[1] == InitialMap(ReportsOf(response.value))
              && t[2] == PopulateList(Prop(response.value, "message"), Arr(ReportsOf(response.value)))
  {
    [ShowLoading] + LoadCalls(response) + [HideLoading]
  }

  /** What the list shows once `initialGalleryAndMap` is done. */
  function GalleryList(response: Completion<Value>): (v: ListView)
    ensures FailureMessage(response).Some? ==> v == ErrorState(FailureMessage(response).value)
    ensures FailureMessage(response).None? ==> v == ListFor(Arr(ReportsOf(response.value)))
  {
    match FailureMessage(response)
    case Some(m) => ErrorState(m)
    case None => ListFor(Arr(ReportsOf(response.value)))
  }

  /** A failed or timed-out listing shows its error message and no map. */
  lemma ListingFailureShowsMessage(token: Option<string>, page: Value, size: Value, location: Value, e: Exception)
    ensures var x := Gateway.GetAllReports(token, page, size, location, Gateway.Failed(e));
            && GalleryTrace(Normal(x.result)) == [ShowLoading, PopulateListError(Str(e.message)), HideLoading]
            && GalleryList(Normal(x.result)) == ErrorState(Str(e.message))
  {
  }

  /** Normalised records are never nullish, so each gets a list item, in order. */
  lemma {:induction false} StoryRecordsListed(stories: seq<Value>, rs: seq<Value>)
    requires |rs| == |stories| && forall i :: 0 <= i < |rs| ==> rs[i] == Gateway.StoryRecord(stories[i])
    ensures FirstNullish(rs) == |rs|
    ensures |rs| == 0 ==> ListFor(Arr(rs)) == EmptyState
    ensures |rs| > 0 ==>
              && ListFor(Arr(rs)).Items?
              && |ListFor(Arr(rs)).items| == |rs|
              && forall i :: 0 <= i < |rs| ==> ListFor(Arr(rs)).items[i] == ItemFor(Gateway.StoryRecord(stories[i]))
  {
    forall j | 0 <= j < |rs| ensures ItemChoice(rs[j]) == Some(ItemFor(Gateway.StoryRecord(stories[j]))) {
      assert rs[j] == Gateway.StoryRecord(stories[j]);
    }
    FilterMapAllKept(rs, ItemChoice);
  }

  /** An accepted listing puts every story on the page: one list item per
      story, in order, and a map whose click handler is registered. */
  lemma {:induction false} AcceptedListingShown(token: Option<string>, page: Value, size: Value, location: Value,
                                                upstream: Gateway.Upstream)
    requires Gateway.ListAccepted(upstream)
    ensures var x := Gateway.GetAllReports(token, page, size, location, upstream);
            var stories := Prop(upstream.json, "listStory").items;
            var rs := ReportsOf(x.result);
            && FailureMessage(Normal(x.result)).None?
            && |rs| == |stories|
            && (forall i :: 0 <= i < |stories| ==> rs[i] == Gateway.StoryRecord(stories[i]))
            && FirstNullish(rs) == |rs|
            && (|stories| == 0 ==> GalleryList(Normal(x.result)) == EmptyState)
            && (|stories| > 0 ==>
                  && GalleryList(Normal(x.result)).Items?
                  && |GalleryList(Normal(x.result)).items| == |stories|
                  && forall i :: 0 <= i < |stories| ==>
                       GalleryList(Normal(x.result)).items[i] == ItemFor(Gateway.StoryRecord(stories[i])))
  {
    var x := Gateway.GetAllReports(token, page, size, location, upstream);
    var stories := Prop(upstream.json, "listStory").items;
    assert Gateway.IsOk(x.result);
    var rs := ReportsOf(x.result);
    assert GalleryList(Normal(x.result)) == ListFor(Arr(rs));
    StoryRecordsListed(stories, rs);
  }

  class HomePage {
    var list: ListView
    var listLoading: bool
    var mapLoading: bool
    var hasMap: bool
    var layers: seq<Layer>
    var mapClickable: bool
    var currentMarker: Option<Layer>
    var selectedLocation: Option<Value>
    var presenter: HomePresenter?
    /** The view methods invoked from outside the page, in order. */
    var calls: seq<HomeCall>

    constructor ()
      ensures list == Blank && !listLoading && !mapLoading && !hasMap && layers == []
      ensures !mapClickable && currentMarker == None && selectedLocation == None
      ensures presenter == null && calls == []
    {
      list := Blank;
      listLoading := false;
      mapLoading := false;
      hasMap := false;
      layers := [];
      mapClickable := false;
      currentMarker := None;
      selectedLocation := None;
      presenter := null;
      calls := [];
    }

    /** The current marker is a picked marker, and every picked marker on the map is it. */
    predicate PickedIsCurrent()
      reads this
    {
      && (currentMarker.None? || currentMarker.value.PickedMarker?)
      && forall i :: 0 <= i < |layers| && layers[i].PickedMarker? ==> currentMarker == Some(layers[i])
    }

    /** Creates the presenter on this page and loads the gallery with the
        listing's outcome. */
    method AfterRender(response: Completion<Value>)
      modifies this
      ensures presenter != null && fresh(presenter) && presenter.view == this
      ensures calls == old(calls) + GalleryTrace(response)
      ensures list == GalleryList(response)
      ensures !listLoading && mapLoading == old(mapLoading)
      ensures FailureMessage(response).None? ==>
                hasMap && layers == MapLayers(ReportsOf(response.value))
                && (mapClickable <==> FirstNullish(ReportsOf(response.value)) == |ReportsOf(response.value)|)
      ensures FailureMessage(response).Some? ==>
                hasMap == old(hasMap) && layers == old(layers) && mapClickable == old(mapClickable)
      ensures currentMarker == old(currentMarker) && selectedLocation == old(selectedLocation)
    {
      var p := new HomePresenter(this);
      presenter := p;
      p.InitialGalleryAndMap(response);
    }

    method PopulateReportsList(message: Value, reports: Value)
      modifies this`list, this`calls
      ensures list == ListFor(reports)
      ensures calls == old(calls) + [PopulateList(message, reports)]
    {
      calls := calls + [PopulateList(message, reports)];
      if !reports.Arr? {
        list := ErrorState(Str(InvalidFormatMessage));
        return;
      }
      var items := reports.items;
      if |items| == 0 {
        list := EmptyState;
        return;
      }
      var acc: seq<ReportItem> := [];
      var i := 0;
      while i < |items|
        invariant 0 <= i <= |items|
        invariant acc == FilterMap(items[..i], ItemChoice)
      {
        if Truthy(items[i]) {
          acc := acc + [ItemFor(items[i])];
        }
        assert items[..i + 1][..i] == items[..i];
        i := i + 1;
      }
      assert items[..i] == items;
      list := Items(acc);
    }

    method PopulateReportsListEmpty()
      modifies this`list, this`calls
      ensures list == EmptyState
      ensures calls == old(calls) + [PopulateListEmpty]
    {
      calls := calls + [PopulateListEmpty];
      list := EmptyState;
    }

    method PopulateReportsListError(message: Value)
      modifies this`list, this`calls
      ensures list == ErrorState(message)
      ensures calls == old(calls) + [PopulateListError(message)]
    {
      calls := calls + [PopulateListError(message)];
      list := ErrorState(message);
    }

    /** Creates the map and adds the report markers; the click handler is
        registered only when no report was nullish. */
    method InitialMap(reports: seq<Value>)
      modifies this`hasMap, this`layers, this`mapClickable, this`calls
      ensures hasMap
      ensures layers == MapLayers(reports)
      ensures mapClickable <==> FirstNullish(reports) == |reports|
      ensures calls == old(calls) + [HomeCall.InitialMap(reports)]
    {
      calls := calls + [HomeCall.InitialMap(reports)];
      hasMap := true;
      layers := [];
      mapClickable := false;
      var i := 0;
      while i < |reports|
        invariant 0 <= i <= FirstNullish(reports)
        invariant layers == FilterMap(reports[..i], MarkerFor)
        invariant hasMap && !mapClickable && calls == old(calls) + [HomeCall.InitialMap(reports)]
      {
        if Nullish(reports[i]) {
          return;
        }
        match MarkerFor(reports[i]) {
          case Some(m) => layers := layers + [m];
          case None =>
        }
        assert reports[..i + 1][..i] == reports[..i];
        i := i + 1;
      }
      assert reports[..i] == reports;
      mapClickable := true;
    }

    /** Replaces the picked marker by one at (lat, lng) and records the location. */
    method SetMarker(lat: Value, lng: Value)
      requires hasMap
      modifies this`layers, this`currentMarker, this`selectedLocation
      ensures layers == Without(old(layers), old(currentMarker)) + [PickedMarker(lat, lng)]
      ensures currentMarker == Some(PickedMarker(lat, lng))
      ensures selectedLocation == Some(Obj(map["latitude" := lat, "longitude" := lng]))
      ensures old(PickedIsCurrent()) ==> PickedIsCurrent()
    {
      if currentMarker.Some? {
        layers := Without(layers, currentMarker);
      }
      currentMarker := Some(PickedMarker(lat, lng));
      layers := layers + [PickedMarker(lat, lng)];
      selectedLocation := Some(Obj(map["latitude" := lat, "longitude" := lng]));
      if old(PickedIsCurrent()) {
        SetMarkerLeavesOnePicked(old(layers), old(currentMarker), lat, lng);
      }
    }

    method ShowMapLoading()
      modifies this`mapLoading, this`calls
      ensures mapLoading && calls == old(calls) + [HomeCall.ShowMapLoading]
    {
      calls := calls + [HomeCall.ShowMapLoading];
      mapLoading := true;
    }

    method HideMapLoading()
      modifies this`mapLoading, this`calls
      ensures !mapLoading && calls == old(calls) + [HomeCall.HideMapLoading]
    {
      calls := calls + [HomeCall.HideMapLoading];
      mapLoading := false;
    }

    method ShowLoading()
      modifies this`listLoading, this`calls
      ensures listLoading && calls == old(calls) + [HomeCall.ShowLoading]
    {
      calls := calls + [HomeCall.ShowLoading];
      listLoading := true;
    }

    method HideLoading()
      modifies this`listLoading, this`calls
      ensures !listLoading && calls == old(calls) + [HomeCall.HideLoading]
    {
      calls := calls + [HomeCall.HideLoading];
      listLoading := false;
    }
  }

  class HomePresenter {
    const view: HomePage

    constructor (view: HomePage)
      ensures this.view == view
    {
      this.view := view;
    }

    /** The map loader brackets the map's creation. */
    method ShowReportsListMap(reports: seq<Value>)
      modifies view
      ensures view.calls == old(view.calls) + [ShowMapLoading, InitialMap(reports), HideMapLoading]
      ensures !view.mapLoading && view.hasMap && view.layers == MapLayers(reports)
      ensures view.mapClickable <==> FirstNullish(reports) == |reports|
      ensures view.list == old(view.list) && view.listLoading == old(view.listLoading)
      ensures view.currentMarker == old(view.currentMarker) && view.selectedLocation == old(view.selectedLocation)
      ensures view.presenter == old(view.presenter)
    {
      view.ShowMapLoading();
      view.InitialMap(reports);
      view.HideMapLoading();
    }

    /** The `try` block of `initialGalleryAndMap`: an error message when the
        call threw or was not ok, otherwise the map and then the list. */
    method LoadGallery(response: Completion<Value>)
      modifies view
      ensures view.calls == old(view.calls) + LoadCalls(response)
      ensures FailureMessage(response).Some? ==>
                && view.hasMap == old(view.hasMap) && view.layers == old(view.layers)
                && view.mapClickable == old(view.mapClickable)
      ensures FailureMessage(response).None? ==>
                var reports := ReportsOf(response.value);
                && view.hasMap && view.layers == MapLayers(reports)
                && (view.mapClickable <==> FirstNullish(reports) == |reports|)
      ensures view.list == GalleryList(response)
      ensures view.listLoading == old(view.listLoading) && view.mapLoading == old(view.mapLoading)
      ensures view.currentMarker == old(view.currentMarker) && view.selectedLocation == old(view.selectedLocation)
      ensures view.presenter == old(view.presenter)
    {
      match FailureMessage(response) {
        case Some(m) =>
          view.PopulateReportsListError(m);
        case None =>
          var r := response.value;
          var reports := ReportsOf(r);
          view.InitialMap(reports);
          view.PopulateReportsList(Prop(r, "message"), Arr(reports));
      }
    }

    /** Loads the listing's outcome into the page, inside the list loader. */
    method InitialGalleryAndMap(response: Completion<Value>)
      modifies view
      ensures view.calls == old(view.calls) + GalleryTrace(response)
      ensures view.list == GalleryList(response)
      ensures !view.listLoading
      ensures FailureMessage(response).None? ==>
                view.hasMap && view.layers == MapLayers(ReportsOf(response.value))
                && (view.mapClickable <==> FirstNullish(ReportsOf(response.value)) == |ReportsOf(response.value)|)
      ensures FailureMessage(response).Some? ==>
                view.hasMap == old(view.hasMap) && view.layers == old(view.layers)
                && view.mapClickable == old(view.mapClickable)
      ensures view.mapLoading == old(view.mapLoading) && view.currentMarker == old(view.currentMarker)
      ensures view.selectedLocation == old(view.selectedLocation) && view.presenter == old(view.presenter)
    {
      view.ShowLoading();
      LoadGallery(response);
      view.HideLoading();
    }
  }
}
