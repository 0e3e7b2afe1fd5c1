/** The report-detail presenter (src/scripts/pages/report/report-detail-presenter.js):
    loading one report, and saving it to or removing it from the bookmark
    store, with the bookmark button that follows each step. */
module ReportDetail {
  import opened Js
  import opened Outcome
  import opened BookmarkStore
  import Gateway

  /** A call the presenter makes on the report page, with its argument. */
  datatype DetailCall =
    | ShowDetailLoading
    | HideDetailLoading
    | PopulateDetailError(message: Value)
    | PopulateDetail(message: Value, report: Value)
    | RenderSaveButton
    | RenderRemoveButton
    | SaveSucceeded(message: Value)
    | SaveFailed(message: Value)
    | RemoveSucceeded(message: Value)
    | RemoveFailed(message: Value)

  const SavedMessage: string := "Disimpan ke bookmark!"
  const RemovedMessage: string := "Dihapus dari bookmark!"

  /** `showSaveButton` for the store lookup's outcome: the remove button
      exactly when a record is stored, else the save button; a failed lookup
      escapes to the caller. */
  function ButtonFor(lookup: Completion<Value>): (r: Completion<DetailCall>)
    ensures lookup.Abrupt? <==> r.Abrupt?
    ensures lookup.Abrupt? ==> r.exc == lookup.exc
    ensures lookup.Normal? ==> r.value == (if Truthy(lookup.value) then RenderRemoveButton else RenderSaveButton)
  {
    var saved :- lookup;
    Normal(if Truthy(saved) then RenderRemoveButton else RenderSaveButton)
  }

  /** The button shown for a report after the store in state `s` is asked
      about it: remove exactly when a record is stored under the id. */
  lemma ButtonTracksStore(s: seq<Value>, reportId: Value)
    requires ValidKey(reportId)
    ensures ButtonFor(Read(s, reportId, None)) ==
              Normal(if Lookup(s, reportId) != Undefined then RenderRemoveButton else RenderSaveButton)
  {
    var v := Lookup(s, reportId);
    if v != Undefined {
      assert KeyOf(v).Some?;
    }
  }

  /** The page calls of `showReportDetail` for the fetch's outcome and the
      store state `s`: the loader first and last; a failure shows its message;
      an ok answer is rendered and then followed by the bookmark button, or by
      the store's error when the lookup fails. */
  function DetailTrace(response: Completion<Value>, s: seq<Value>, reportId: Value, lookupFault: Option<Exception>)
    : (t: seq<DetailCall>)
    ensures |t| >= 3 && t[0] == ShowDetailLoading && t[|t| - 1] == HideDetailLoading
    ensures forall i :: 0 < i < |t| - 1 ==> t[i] != ShowDetailLoading && t[i] != HideDetailLoading
    ensures FailureMessage(response).Some? ==>
              t == [ShowDetailLoading, PopulateDetailError(FailureMessage(response).value), HideDetailLoading]
    ensures FailureMessage(response).None? ==>
              |t| == 4 && t[1] == PopulateDetail(Prop(response.value, "message"), Prop(response.value, "data"))
              && (t[2] == RenderRemoveButton <==> Read(s, reportId, lookupFault).Normal? && Truthy(Read(s, reportId, lookupFault).value))
    ensures FailureMessage(response).None? && Read(s, reportId, lookupFault).Normal? ==>
              t[2] == (if Truthy(Read(s, reportId, lookupFault).value) then RenderRemoveButton else RenderSaveButton)
    ensures FailureMessage(response).None? && Read(s, reportId, lookupFault).Abrupt? ==>
              t[2] == PopulateDetailError(MessageOf(Read(s, reportId, lookupFault).exc))
  {
    var middle :=
      match FailureMessage(response)
      case Some(m) => [PopulateDetailError(m)]
      case None =>
        var r := response.value;
        [PopulateDetail(Prop(r, "message"), Prop(r, "data"))]
        + (match ButtonFor(Read(s, reportId, lookupFault))
           case Normal(b) => [b]
           case Abrupt(e) => [PopulateDetailError(MessageOf(e))]);
    [ShowDetailLoading] + middle + [HideDetailLoading]
  }

  /** Through the data module: a fetch that could not reach the server
      shows its error and never asks the store. */
  lemma UnreachedDetailShowsError(token: Option<string>, s: seq<Value>, reportId: Value,
                                  lookupFault: Option<Exception>, e: Exception)
    ensures var x := Gateway.GetReportById(token, reportId, Gateway.Failed(e));
            DetailTrace(Normal(x.result), s, reportId, lookupFault)
            == [ShowDetailLoading, PopulateDetailError(Str(e.message)), HideDetailLoading]
  {
  }

  /** The page calls and the new store state of `saveReport`: the answer's
      `data` is put without checking `ok`; a put that succeeds shows the
      success message and then the button. Anything thrown before the put
      completes shows the error and leaves the store unchanged; a lookup that
      throws after the put keeps the stored record and shows the success
      message followed by the failure message. */
  function SaveOutcome(response: Completion<Value>, s: seq<Value>, reportId: Value,
                       putFault: Option<Exception>, lookupFault: Option<Exception>)
    : (o: (seq<DetailCall>, seq<Value>))
    ensures 1 <= |o.0| <= 2
    ensures o.0[0] == SaveSucceeded(Str(SavedMessage)) <==>
              && response.Normal? && !Nullish(response.value) && putFault.None?
              && KeyOf(Prop(response.value, "data")).Some?
    ensures o.0[0] == SaveSucceeded(Str(SavedMessage)) ==>
              var data := Prop(response.value, "data");
              && o.1 == Upserted(s, data, KeyOf(data).value)
              && |o.0| == 2
              && (ButtonFor(Read(o.1, reportId, lookupFault)).Normal? ==>
                    o.0[1] == ButtonFor(Read(o.1, reportId, lookupFault)).value)
    ensures o.0[0] == SaveSucceeded(Str(SavedMessage)) && Read(o.1, reportId, lookupFault).Abrupt? ==>
              o.0[1] == SaveFailed(MessageOf(Read(o.1, reportId, lookupFault).exc))
    ensures o.0[0] != SaveSucceeded(Str(SavedMessage)) ==> o.1 == s && |o.0| == 1 && o.0[0].SaveFailed?
    ensures response.Abrupt? ==> o == ([SaveFailed(MessageOf(response.exc))], s)
    ensures response.Normal? && Nullish(response.value) ==>
              o == ([SaveFailed(MessageOf(ReadError(response.value, "data")))], s)
    ensures response.Normal? && !Nullish(response.value) && Put(s, Prop(response.value, "data"), putFault).0.Abrupt? ==>
              o == ([SaveFailed(MessageOf(Put(s, Prop(response.value, "data"), putFault).0.exc))], s)
  {
    match response
    case Abrupt(e) => ([SaveFailed(MessageOf(e))], s)
    case Normal(r) =>
      match Js.Get(r, "data")
      case Abrupt(e) => ([SaveFailed(MessageOf(e))], s)
      case Normal(data) =>
        var (stored, s2) := Put(s, data, putFault);
        match stored
        case Abrupt(e) => ([SaveFailed(MessageOf(e))], s)
        case Normal(_) =>
          match ButtonFor(Read(s2, reportId, lookupFault))
          case Normal(b) => ([SaveSucceeded(Str(SavedMessage)), b], s2)
          case Abrupt(e) => ([SaveSucceeded(Str(SavedMessage)), SaveFailed(MessageOf(e))], s2)
  }

  /** Saving the fetched report under its own id stores it and switches the
      button to remove. */
  lemma {:induction false} SavedReportShowsRemoveButton(s: seq<Value>, response: Value, reportId: Value)
    requires Consistent(s) && !Nullish(response)
    requires KeyOf(Prop(response, "data")) == Some(reportId)
    ensures var o := SaveOutcome(Normal(response), s, reportId, None, None);
            && o.0 == [SaveSucceeded(Str(SavedMessage)), RenderRemoveButton]
            && Consistent(o.1)
            && Lookup(o.1, reportId) == Prop(response, "data")
  {
    PutThenGet(s, Prop(response, "data"));
  }

  /** Through the data module: saving a report whose fetch was not ok puts
      `undefined`, which the store refuses; the store is unchanged. */
  lemma NotOkDetailIsNotSaved(token: Option<string>, upstream: Gateway.Upstream, s: seq<Value>, reportId: Value,
                              lookupFault: Option<Exception>)
    requires !Gateway.IsOk(Gateway.GetReportById(token, reportId, upstream).result)
    ensures var x := Gateway.GetReportById(token, reportId, upstream);
            SaveOutcome(Normal(x.result), s, reportId, None, lookupFault) == ([SaveFailed(Str(KeyPathMessage))], s)
  {
  }

  /** The page calls and the new store state of `removeReport`: a delete
      that succeeds shows the success message and then the button, or the
      failure message when the lookup after it throws (the record stays
      removed); a delete that throws shows its error and changes nothing. */
  function RemoveOutcome(s: seq<Value>, reportId: Value, removeFault: Option<Exception>, lookupFault: Option<Exception>)
    : (o: (seq<DetailCall>, seq<Value>))
    ensures 1 <= |o.0| <= 2
    ensures o.0[0] == RemoveSucceeded(Str(RemovedMessage)) <==> removeFault.None? && ValidKey(reportId)
    ensures o.0[0] == RemoveSucceeded(Str(RemovedMessage)) ==>
              && o.1 == Removed(s, reportId)
              && |o.0| == 2
              && (ButtonFor(Read(o.1, reportId, lookupFault)).Normal? ==>
                    o.0[1] == ButtonFor(Read(o.1, reportId, lookupFault)).value)
    ensures o.0[0] == RemoveSucceeded(Str(RemovedMessage)) && Read(o.1, reportId, lookupFault).Abrupt? ==>
              o.0[1] == RemoveFailed(MessageOf(Read(o.1, reportId, lookupFault).exc))
    ensures o.0[0] != RemoveSucceeded(Str(RemovedMessage)) ==> o.1 == s && o.0 == [RemoveFailed(MessageOf(Delete(s, reportId, removeFault).0.exc))]
  {
    var (deleted, s2) := Delete(s, reportId, removeFault);
    match deleted
    case Abrupt(e) => ([RemoveFailed(MessageOf(e))], s)
    case Normal(_) =>
      match ButtonFor(Read(s2, reportId, lookupFault))
      case Normal(b) => ([RemoveSucceeded(Str(RemovedMessage)), b], s2)
      case Abrupt(e) => ([RemoveSucceeded(Str(RemovedMessage)), RemoveFailed(MessageOf(e))], s2)
  }

  /** Removing a bookmarked report drops it and switches the button to save. */
  lemma {:induction false} RemovedReportShowsSaveButton(s: seq<Value>, reportId: Value)
    requires Consistent(s) && ValidKey(reportId)
    ensures var o := RemoveOutcome(s, reportId, None, None);
            && o.0 == [RemoveSucceeded(Str(RemovedMessage)), RenderSaveButton]
            && Consistent(o.1)
            && Lookup(o.1, reportId) == Undefined
  {
    RemoveThenGet(s, reportId);
  }

  /** The report page; it is not part of this model beyond the calls it receives. */
  class DetailView {
    var calls: seq<DetailCall>

    constructor ()
      ensures calls == []
    {
      calls := [];
    }

    method Receive(c: DetailCall)
      modifies this
      ensures calls == old(calls) + [c]
    {
      calls := calls + [c];
    }
  }

  class ReportDetailPresenter {
    const reportId: Value
    const view: DetailView
    const db: Database
    /** The last report data an ok fetch delivered. */
    var report: Value

    constructor (reportId: Value, view: DetailView, db: Database)
      ensures this.reportId == reportId && this.view == view && this.db == db && report == Undefined
    {
      this.reportId := reportId;
      this.view := view;
      this.db := db;
      report := Undefined;
    }

    /** Renders the button for the stored state, or returns the lookup's error without rendering. */
    method ShowSaveButton(lookupFault: Option<Exception>) returns (thrown: Option<Exception>)
      modifies view
      ensures ButtonFor(db.GetStoryById(reportId, lookupFault)).Normal? ==>
                thrown == None && view.calls == old(view.calls) + [ButtonFor(db.GetStoryById(reportId, lookupFault)).value]
      ensures ButtonFor(db.GetStoryById(reportId, lookupFault)).Abrupt? ==>
                thrown == Some(ButtonFor(db.GetStoryById(reportId, lookupFault)).exc) && view.calls == old(view.calls)
    {
      var saved := db.GetStoryById(reportId, lookupFault);
      if saved.Abrupt? {
        return Some(saved.exc);
      }
      if Truthy(saved.value) {
        view.Receive(RenderRemoveButton);
      } else {
        view.Receive(RenderSaveButton);
      }
      return None;
    }

    method ShowReportDetail(response: Completion<Value>, lookupFault: Option<Exception>)
      modifies view, this`report
      ensures view.calls == old(view.calls) + DetailTrace(response, db.stories, reportId, lookupFault)
      ensures FailureMessage(response).None? ==> report == Prop(response.value, "data")
      ensures FailureMessage(response).Some? ==> report == old(report)
    {
      view.Receive(ShowDetailLoading);
      match FailureMessage(response) {
        case Some(m) =>
          view.Receive(PopulateDetailError(m));
        case None =>
          var r := response.value;
          report := Prop(r, "data");
          view.Receive(PopulateDetail(Prop(r, "message"), Prop(r, "data")));
          var thrown := ShowSaveButton(lookupFault);
          if thrown.Some? {
            view.Receive(PopulateDetailError(MessageOf(thrown.value)));
          }
      }
      view.Receive(HideDetailLoading);
    }

    method SaveReport(response: Completion<Value>, putFault: Option<Exception>, lookupFault: Option<Exception>)
      requires db.Valid()
      modifies db, view
      ensures db.Valid()
      ensures (view.calls, db.stories) ==
              (old(view.calls) + SaveOutcome(response, old(db.stories), reportId, putFault, lookupFault).0,
               SaveOutcome(response, old(db.stories), reportId, putFault, lookupFault).1)
    {
      if response.Abrupt? {
        view.Receive(SaveFailed(MessageOf(response.exc)));
        return;
      }
      var data := Js.Get(response.value, "data");
      if data.Abrupt? {
        view.Receive(SaveFailed(MessageOf(data.exc)));
        return;
      }
      var stored := db.PutStory(data.value, putFault);
      if stored.Abrupt? {
        view.Receive(SaveFailed(MessageOf(stored.exc)));
        return;
      }
      view.Receive(SaveSucceeded(Str(SavedMessage)));
      ghost var button := ButtonFor(Read(db.stories, reportId, lookupFault));
      var thrown := ShowSaveButton(lookupFault);
      if thrown.Some? {
        assert thrown.value == button.exc;
        view.Receive(SaveFailed(MessageOf(thrown.value)));
        assert SaveOutcome(response, old(db.stories), reportId, putFault, lookupFault)
               == ([SaveSucceeded(Str(SavedMessage)), SaveFailed(MessageOf(button.exc))], db.stories);
        assert view.calls == old(view.calls) + [SaveSucceeded(Str(SavedMessage)), SaveFailed(MessageOf(button.exc))];
      } else {
        assert SaveOutcome(response, old(db.stories), reportId, putFault, lookupFault)
               == ([SaveSucceeded(Str(SavedMessage)), button.value], db.stories);
        assert view.calls == old(view.calls) + [SaveSucceeded(Str(SavedMessage)), button.value];
      }
    }

    method RemoveReport(removeFault: Option<Exception>, lookupFault: Option<Exception>)
      requires db.Valid()
      modifies db, view
      ensures db.Valid()
      ensures (view.calls, db.stories) ==
              (old(view.calls) + RemoveOutcome(old(db.stories), reportId, removeFault, lookupFault).0,
               RemoveOutcome(old(db.stories), reportId, removeFault, lookupFault).1)
    {
      var deleted := db.RemoveStory(reportId, removeFault);
      if deleted.Abrupt? {
        view.Receive(RemoveFailed(MessageOf(deleted.exc)));
        return;
      }
      view.Receive(RemoveSucceeded(Str(RemovedMessage)));
      ghost var button := ButtonFor(Read(db.stories, reportId, lookupFault));
      var thrown := ShowSaveButton(lookupFault);
      if thrown.Some? {
        assert thrown.value == button.exc;
        view.Receive(RemoveFailed(MessageOf(thrown.value)));
        assert RemoveOutcome(old(db.stories), reportId, removeFault, lookupFault)
               == ([RemoveSucceeded(Str(RemovedMessage)), RemoveFailed(MessageOf(button.exc))], db.stories);
        assert view.calls == old(view.calls) + [RemoveSucceeded(Str(RemovedMessage)), RemoveFailed(MessageOf(button.exc))];
      } else {
        assert RemoveOutcome(old(db.stories), reportId, removeFault, lookupFault)
               == ([RemoveSucceeded(Str(RemovedMessage)), button.value], db.stories);
        assert view.calls == old(view.calls) + [RemoveSucceeded(Str(RemovedMessage)), button.value];
      }
    }
  }
}
