/** The new-report page (src/scripts/pages/new/new-page.js) and its
    presenter (new-presenter.js): the one-slot photo buffer, the camera
    toggle, the submit guard, and what the presenter reports for the store
    call's outcome. */
module Submission {
  import opened Js
  import Gateway

  /** A staged photo: its id (the clock reading when it was added, as text) and its blob. */
  datatype Documentation = Documentation(id: string, blob: Value)

  /** A view method invoked from outside the page, with its argument. */
  datatype NewCall =
    | ShowSubmitLoading
    | HideSubmitLoading
    | StoreSuccessfully(message: Value)
    | StoreFailed(message: Value)

  const DescriptionRequired: string := "Deskripsi wajib diisi"
  const PhotoRequired: string := "Minimal 1 foto"
  const UploadedMessage: string := "Story berhasil diunggah!"
  const UploadFailedMessage: string := "Gagal upload story."
  const OpenCameraLabel: string := "Buka Kamera"
  const CloseCameraLabel: string := "Tutup Kamera"
  const BroadcastMember: string := "sendReportToAllUserViaNotification"

  /** The PNG blob `convertBase64ToBlob(data, 'image/png')` yields. */
  function PngBlob(base64: string): Value {
    Obj(map["type" := Str("image/png"), "base64" := Str(base64)])
  }

  /** The blob stored for a picture: a string (a camera capture) is decoded
      to a PNG blob, anything else (a chosen file) is kept as it is. */
  function BlobOf(image: Value): (b: Value)
    ensures image.Str? ==> b == PngBlob(image.s)
    ensures !image.Str? ==> b == image
  {
    if image.Str? then PngBlob(image.s) else image
  }

  /** The entries of the FormData sent for a report, in append order. */
  function ReportForm(description: string, photo: Value, lat: Value, lon: Value): (form: seq<(string, Value)>)
    ensures |form| == 4
    ensures form[0] == ("description", Str(description)) && form[1] == ("photo", photo)
    ensures form[2] == ("lat", lat) && form[3] == ("lon", lon)
  {
    [("description", Str(description)), ("photo", photo), ("lat", lat), ("lon", lon)]
  }

  /** The failure message `postNewReport` shows for the store call's outcome,
      or None when it reports success: a failure is a thrown error, a falsy
      response, or a truthy `error` flag. */
  function PostFailure(store: Completion<Value>): (m: Option<Value>)
    ensures store.Abrupt? ==> m == Some(MessageOf(store.exc))
    ensures store.Normal? ==> (m.None? <==> Truthy(store.value) && !Truthy(Prop(store.value, "error")))
    ensures store.Normal? && m.Some? ==> Truthy(m.value)
    ensures store.Normal? && m.Some? && Truthy(Prop(store.value, "message")) ==> m.value == Prop(store.value, "message")
    ensures store.Normal? && m.Some? && !Truthy(Prop(store.value, "message")) ==> m.value == Str(UploadFailedMessage)
  {
    match store
    case Abrupt(e) => Some(MessageOf(e))
    case Normal(r) =>
      if !Truthy(r) || Truthy(Prop(r, "error")) then
        Some(Or(if Nullish(r) then Undefined else Prop(r, "message"), Str(UploadFailedMessage)))
      else None
  }

  /** The one outcome call `postNewReport` makes: failure with its message, or success. */
  function OutcomeCall(store: Completion<Value>): NewCall {
    match PostFailure(store)
    case Some(m) => StoreFailed(m)
    case None => StoreSuccessfully(Prop(store.value, "message"))
  }

  /** The view calls of `postNewReport`: the submit loader first and last,
      and between them exactly one of failure and success. */
  function PostTrace(store: Completion<Value>): (t: seq<NewCall>)
    ensures |t| == 3 && t[0] == ShowSubmitLoading && t[2] == HideSubmitLoading
    ensures t[1].StoreFailed? <==> PostFailure(store).Some?
    ensures t[1].StoreFailed? ==> t[1].message == PostFailure(store).value
    ensures PostFailure(store).None? ==> store.Normal? && t[1] == StoreSuccessfully(Prop(store.value, "message"))
  {
    [ShowSubmitLoading, OutcomeCall(store), HideSubmitLoading]
  }

  /** `#notifyToAllUser`: true exactly when the model exposes the broadcast
      call, the call returned, and its response is truthy-ok; a missing
      member throws when called and the catch answers false. */
  function NotifyToAllUser(exports: set<string>, broadcast: Completion<Value>): (sent: bool)
    ensures sent <==> BroadcastMember in exports && broadcast.Normal?
                      && !Nullish(broadcast.value) && Truthy(Prop(broadcast.value, "ok"))
  {
    if BroadcastMember !in exports then false
    else
      match broadcast
      case Abrupt(_) => false
      case Normal(r) =>
        match Get(r, "ok")
        case Abrupt(_) => false
        case Normal(ok) => Truthy(ok)
  }

  /** The data module does not export the broadcast call, so the
      notification to all users never reports success. */
  lemma BroadcastNeverSucceeds(broadcast: Completion<Value>)
    ensures !NotifyToAllUser(Gateway.Exports, broadcast)
  {
  }

  /** Through the data module: the store call that could not reach the
      server carries no `error` flag, so the page reports it as uploaded. */
  lemma UnreachedStoreReportedAsUploaded(token: Option<string>, form: seq<(string, Value)>, e: Exception)
    ensures PostFailure(Normal(Gateway.StoreNewReport(token, form, Gateway.Failed(e)).result)).None?
    ensures PostTrace(Normal(Gateway.StoreNewReport(token, form, Gateway.Failed(e)).result))[1]
            == StoreSuccessfully(Str(e.message))
  {
  }

  /** Through the data module: a server answer is reported as a failure
      exactly when it carries a truthy `error` flag, with the server's message
      (or the fallback when it has none). */
  lemma ServerAnswerReported(token: Option<string>, form: seq<(string, Value)>, json: Value)
    requires !Nullish(json)
    ensures var r := Gateway.StoreNewReport(token, form, Gateway.Responded(json)).result;
            && (PostFailure(Normal(r)).Some? <==> Truthy(Prop(json, "error")))
            && (Truthy(Prop(json, "error")) ==>
                  PostFailure(Normal(r)) == Some(Or(Prop(json, "message"), Str(UploadFailedMessage))))
  {
    var r := Gateway.StoreNewReport(token, form, Gateway.Responded(json)).result;
    assert r == Obj(Gateway.Spread(json)["ok" := Bool(!Truthy(Prop(json, "error")))]);
  }

  class NewPage {
    var documentations: seq<Documentation>
    /** The documentation the taken-list shows, if any. */
    var shownPicture: Option<Documentation>
    var isCameraOpen: bool
    var cameraLabel: string
    var cameraInstances: nat
    var cameraStreaming: bool
    var takeListenersAdded: nat
    var submitLoading: bool
    var alerts: seq<Value>
    var hash: string
    var presenter: NewPresenter?
    /** The view methods invoked from outside the page, in order. */
    var calls: seq<NewCall>

    constructor ()
      ensures documentations == [] && shownPicture == None && !isCameraOpen && cameraLabel == OpenCameraLabel
      ensures cameraInstances == 0 && !cameraStreaming && takeListenersAdded == 0 && !submitLoading
      ensures alerts == [] && presenter == null && calls == []
    {
      documentations := [];
      shownPicture := None;
      isCameraOpen := false;
      cameraLabel := OpenCameraLabel;
      cameraInstances := 0;
      cameraStreaming := false;
      takeListenersAdded := 0;
      submitLoading := false;
      alerts := [];
      hash := "";
      presenter := null;
      calls := [];
    }

    /** At most one photo is staged; the camera is constructed at most once,
        exists whenever it is open, and streams exactly while open. */
    predicate Valid()
      reads this
    {
      && |documentations| <= 1
      && cameraInstances <= 1
      && (isCameraOpen ==> cameraInstances == 1)
      && cameraStreaming == isCameraOpen
      && cameraLabel == (if isCameraOpen then CloseCameraLabel else OpenCameraLabel)
    }

    /** Creates the presenter on this page and empties the photo buffer. */
    method AfterRender()
      requires Valid()
      modifies this`presenter, this`documentations
      ensures Valid()
      ensures presenter != null && fresh(presenter) && presenter.view == this
      ensures documentations == []
    {
      var p := new NewPresenter(this);
      presenter := p;
      documentations := [];
    }

    /** `#addPicture`: the buffer keeps only the newest picture. */
    method AddPicture(image: Value, now: int)
      requires Valid()
      modifies this`documentations
      ensures Valid()
      ensures documentations == [Documentation(IntText(now), BlobOf(image))]
    {
      var blob := image;
      if image.Str? {
        blob := PngBlob(image.s);
      }
      documentations := [Documentation(IntText(now), blob)];
    }

    /** `#renderPictures`: the first staged picture, or nothing. */
    method RenderPictures()
      modifies this`shownPicture
      ensures documentations == [] ==> shownPicture == None
      ensures documentations != [] ==> shownPicture == Some(documentations[0])
    {
      if |documentations| == 0 {
        shownPicture := None;
      } else {
        shownPicture := Some(documentations[0]);
      }
    }

    /** A click on the shown picture empties the buffer and the list. */
    method RemovePicture()
      requires Valid() && shownPicture.Some?
      modifies this`documentations, this`shownPicture
      ensures Valid()
      ensures documentations == [] && shownPicture == None
    {
      documentations := [];
      RenderPictures();
    }

    /** The file input's change handler: `file` is `files[0]`. */
    method FileChosen(file: Value, now: int)
      requires Valid()
      modifies this`documentations, this`shownPicture
      ensures Valid()
      ensures Truthy(file) ==> documentations == [Documentation(IntText(now), BlobOf(file))]
      ensures !Truthy(file) ==> documentations == old(documentations)
      ensures shownPicture == (if documentations == [] then None else Some(documentations[0]))
    {
      if Truthy(file) {
        AddPicture(file, now);
      }
      RenderPictures();
    }

    /** The camera's take-button handler, with the captured image. */
    method PictureTaken(image: Value, now: int)
      requires Valid() && cameraInstances == 1
      modifies this`documentations, this`shownPicture
      ensures Valid()
      ensures documentations == [Documentation(IntText(now), BlobOf(image))]
      ensures shownPicture == Some(documentations[0])
    {
      AddPicture(image, now);
      RenderPictures();
    }

    /** The camera button: opening constructs the camera the first time,
        adds a take-button listener and launches the stream; closing stops it. */
    method ToggleCamera()
      requires Valid()
      modifies this`isCameraOpen, this`cameraLabel, this`cameraInstances, this`cameraStreaming, this`takeListenersAdded
      ensures Valid()
      ensures isCameraOpen == !old(isCameraOpen)
      ensures cameraInstances == (if isCameraOpen then 1 else old(cameraInstances))
      ensures takeListenersAdded == old(takeListenersAdded) + (if isCameraOpen then 1 else 0)
    {
      isCameraOpen := !isCameraOpen;
      if isCameraOpen {
        cameraLabel := CloseCameraLabel;
        if cameraInstances == 0 {
          cameraInstances := 1;
        }
        takeListenersAdded := takeListenersAdded + 1;
        cameraStreaming := true;
      } else {
        cameraLabel := OpenCameraLabel;
        cameraStreaming := false;
      }
    }

    /** The form's submit handler: a missing description or photo is
        alerted and nothing is sent; otherwise the staged photo is posted
        with the description and coordinates. `form` is what was sent and
        `notified`, whether the broadcast was started and what it answered. */
    method Submit(description: string, lat: Value, lon: Value, exports: set<string>,
                  store: Completion<Value>, broadcast: Completion<Value>)
      returns (form: Option<seq<(string, Value)>>, notified: Option<bool>)
      requires Valid() && presenter != null && presenter.view == this
      modifies this`alerts, this`calls, this`submitLoading, this`hash
      ensures Valid() && presenter == old(presenter) && documentations == old(documentations)
      ensures description == "" ==>
                form == None && notified == None && alerts == old(alerts) + [Str(DescriptionRequired)]
                && calls == old(calls) && hash == old(hash) && submitLoading == old(submitLoading)
      ensures description != "" && old(documentations) == [] ==>
                form == None && notified == None && alerts == old(alerts) + [Str(PhotoRequired)]
                && calls == old(calls) && hash == old(hash) && submitLoading == old(submitLoading)
      ensures description != "" && old(documentations) != [] ==>
                && form == Some(ReportForm(description, old(documentations)[0].blob, lat, lon))
                && calls == old(calls) + PostTrace(store)
                && (notified.Some? <==> PostFailure(store).None?)
                && (notified.Some? ==> notified.value == NotifyToAllUser(exports, broadcast))
                && (PostFailure(store).Some? ==> alerts == old(alerts) + [PostFailure(store).value] && hash == old(hash))
                && (PostFailure(store).None? ==> alerts == old(alerts) + [Str(UploadedMessage)] && hash == "/")
                && !submitLoading
    {
      if description == "" {
        alerts := alerts + [Str(DescriptionRequired)];
        return None, None;
      }
      if |documentations| == 0 {
        alerts := alerts + [Str(PhotoRequired)];
        return None, None;
      }
      var photo := documentations[0].blob;
      var sent;
      sent, notified := presenter.PostNewReport(description, photo, lat, lon, exports, store, broadcast);
      form := Some(sent);
    }

    /** Alerts the upload and navigates to the home route. */
    method StoreSuccessfully(message: Value)
      modifies this`alerts, this`hash, this`calls
      ensures alerts == old(alerts) + [Str(UploadedMessage)] && hash == "/"
      ensures calls == old(calls) + [NewCall.StoreSuccessfully(message)]
    {
      calls := calls + [NewCall.StoreSuccessfully(message)];
      alerts := alerts + [Str(UploadedMessage)];
      hash := "/";
    }

    method StoreFailed(message: Value)
      modifies this`alerts, this`calls
      ensures alerts == old(alerts) + [message]
      ensures calls == old(calls) + [NewCall.StoreFailed(message)]
    {
      calls := calls + [NewCall.StoreFailed(message)];
      alerts := alerts + [message];
    }

    method ShowSubmitLoadingButton()
      modifies this`submitLoading, this`calls
      ensures submitLoading && calls == old(calls) + [ShowSubmitLoading]
    {
      calls := calls + [ShowSubmitLoading];
      submitLoading := true;
    }

    method HideSubmitLoadingButton()
      modifies this`submitLoading, this`calls
      ensures !submitLoading && calls == old(calls) + [HideSubmitLoading]
    {
      calls := calls + [HideSubmitLoading];
      submitLoading := false;
    }
  }

  class NewPresenter {
    const view: NewPage

    constructor (view: NewPage)
      ensures this.view == view
    {
      this.view := view;
    }

    /** The response handling inside the `try` of `postNewReport`: the
        failure is shown, or the broadcast is started (its answer is not
        awaited and not used) and the success is shown. */
    method ReportOutcome(store: Completion<Value>, exports: set<string>, broadcast: Completion<Value>)
      returns (notified: Option<bool>)
      requires view.Valid()
      modifies view`calls, view`alerts, view`hash
      ensures view.Valid()
      ensures view.calls == old(view.calls) + [OutcomeCall(store)]
      ensures notified.Some? <==> PostFailure(store).None?
      ensures notified.Some? ==> notified.value == NotifyToAllUser(exports, broadcast)
      ensures PostFailure(store).Some? ==> view.alerts == old(view.alerts) + [PostFailure(store).value]
                                           && view.hash == old(view.hash)
      ensures PostFailure(store).None? ==> view.alerts == old(view.alerts) + [Str(UploadedMessage)] && view.hash == "/"
    {
      notified := None;
      match store {
        case Abrupt(e) =>
          view.StoreFailed(MessageOf(e));
        case Normal(response) =>
          if !Truthy(response) || Truthy(Prop(response, "error")) {
            view.StoreFailed(Or(if Nullish(response) then Undefined else Prop(response, "message"),
                                Str(UploadFailedMessage)));
          } else {
            notified := Some(NotifyToAllUser(exports, broadcast));
            view.StoreSuccessfully(Prop(response, "message"));
          }
      }
    }

    /** Builds the form, takes the store call's outcome, and reports failure
        or success inside the submit loader. */
    method PostNewReport(description: string, photo: Value, lat: Value, lon: Value, exports: set<string>,
                         store: Completion<Value>, broadcast: Completion<Value>)
      returns (form: seq<(string, Value)>, notified: Option<bool>)
      requires view.Valid()
      modifies view`submitLoading, view`calls, view`alerts, view`hash
      ensures view.Valid()
      ensures form == ReportForm(description, photo, lat, lon)
      ensures view.calls == old(view.calls) + PostTrace(store)
      ensures !view.submitLoading
      ensures notified.Some? <==> PostFailure(store).None?
      ensures notified.Some? ==> notified.value == NotifyToAllUser(exports, broadcast)
      ensures PostFailure(store).Some? ==> view.alerts == old(view.alerts) + [PostFailure(store).value]
                                           && view.hash == old(view.hash)
      ensures PostFailure(store).None? ==> view.alerts == old(view.alerts) + [Str(UploadedMessage)] && view.hash == "/"
    {
      view.ShowSubmitLoadingButton();
      form := [];
      form := form + [("description", Str(description))];
      form := form + [("photo", photo)];
      form := form + [("lat", lat)];
      form := form + [("lon", lon)];
      notified := ReportOutcome(store, exports, broadcast);
      view.HideSubmitLoadingButton();
    }
  }
}
