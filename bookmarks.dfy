/** The bookmark-list presenter (src/scripts/pages/bookmark/bookmark-presenter.js):
    the loader, then the empty state, the list of saved stories or the
    error, and the re-render after a story's remove button is clicked. */
module Bookmarks {
  import opened Js
  import opened Lists
  import opened BookmarkStore

  /** One rendered bookmark: its `data-id`, the link, the caption and the subtitle, as text. */
  datatype Entry = Entry(dataId: string, link: string, caption: string, subtitle: string)

  /** What the container shows. */
  datatype Screen = Blank | Loader | EmptyScreen | ErrorScreen(text: string) | ListScreen(entries: seq<Entry>)

  const NoTitle: string := "Tanpa Judul"
  const MapNotFunction: string := "stories.map is not a function"

  /** One list entry: the id as text, a link to the report's route, the caption
      `title ?? description ?? 'Tanpa Judul'` and the subtitle `description ?? ''`. */
  function EntryFor(story: Value): (e: Entry)
    ensures e.dataId == ToText(Prop(story, "id")) && e.link == "#/reports/" + e.dataId
    ensures !Nullish(Prop(story, "title")) ==> e.caption == ToText(Prop(story, "title"))
    ensures Nullish(Prop(story, "title")) && !Nullish(Prop(story, "description")) ==>
              e.caption == ToText(Prop(story, "description"))
    ensures Nullish(Prop(story, "title")) && Nullish(Prop(story, "description")) ==> e.caption == NoTitle
    ensures Nullish(Prop(story, "description")) ==> e.subtitle == ""
    ensures !Nullish(Prop(story, "description")) ==> e.subtitle == ToText(Prop(story, "description"))
  {
    var id := ToText(Prop(story, "id"));
    Entry(id, "#/reports/" + id,
          ToText(Coalesce(Prop(story, "title"), Coalesce(Prop(story, "description"), Str(NoTitle)))),
          ToText(Coalesce(Prop(story, "description"), Str(""))))
  }

  /** What `init` renders for the stored value: the empty state for a falsy
      value or one of length 0, otherwise the list, or the text of the error
      that building it throws (a nullish story, or a value without `map`). */
  function ScreenFor(saved: Value): (sc: Screen)
    ensures sc == EmptyScreen <==> !Truthy(saved) || Prop(saved, "length") == Num(0.0)
    ensures sc.ListScreen? <==>
              sc != EmptyScreen && saved.Arr? && FirstNullish(saved.items) == |saved.items|
    ensures sc.ListScreen? ==>
              |sc.entries| == |saved.items| && forall i :: 0 <= i < |saved.items| ==> sc.entries[i] == EntryFor(saved.items[i])
    ensures sc != EmptyScreen && !saved.Arr? ==> sc == ErrorScreen(ErrorText(TypeError(MapNotFunction)))
    ensures sc != EmptyScreen && saved.Arr? && FirstNullish(saved.items) < |saved.items| ==>
              sc == ErrorScreen(ErrorText(ReadError(saved.items[FirstNullish(saved.items)], "id")))
  {
    if !Truthy(saved) || Prop(saved, "length") == Num(0.0) then EmptyScreen
    else if !saved.Arr? then ErrorScreen(ErrorText(TypeError(MapNotFunction)))
    else
      match MapOrThrow(saved.items, "id", EntryFor)
      case Normal(entries) => ListScreen(entries)
      case Abrupt(e) => ErrorScreen(ErrorText(e))
  }

  /** The screens `init` writes over a store in state `s`: the loader, then
      the outcome; a store fault shows its error text. */
  function InitScreens(s: seq<Value>, fault: Option<Exception>): (t: seq<Screen>)
    ensures |t| == 2 && t[0] == Loader
    ensures fault.Some? ==> t[1] == ErrorScreen(ErrorText(fault.value))
    ensures fault.None? ==> t[1] == ScreenFor(Arr(s))
  {
    match ReadAll(s, fault)
    case Abrupt(e) => [Loader, ErrorScreen(ErrorText(e))]
    case Normal(saved) => [Loader, ScreenFor(saved)]
  }

  /** A consistent store shows the empty state when it holds nothing, and
      otherwise one entry per stored story, in store order. */
  lemma {:induction false} StoredStoriesListed(s: seq<Value>)
    requires Consistent(s)
    ensures |s| == 0 ==> InitScreens(s, None)[1] == EmptyScreen
    ensures |s| > 0 ==>
              && InitScreens(s, None)[1].ListScreen?
              && |InitScreens(s, None)[1].entries| == |s|
              && forall i :: 0 <= i < |s| ==> InitScreens(s, None)[1].entries[i] == EntryFor(s[i])
  {
    forall i | 0 <= i < |s| ensures !Nullish(s[i]) {
      assert KeyOf(s[i]).Some?;
    }
  }

  /** After a bookmarked story's remove button is clicked, the re-rendered
      screen lists one story fewer (the empty state once none is left), and no
      remaining story has the removed id. */
  lemma {:induction false} RemoveClickDropsStory(s: seq<Value>, id: string)
    requires Consistent(s) && Lookup(s, Str(id)) != Undefined
    ensures var d := Delete(s, Str(id), None).1;
            && Lookup(d, Str(id)) == Undefined
            && |d| == |s| - 1
            && (|s| == 1 ==> InitScreens(d, None)[1] == EmptyScreen)
            && (|s| > 1 ==> InitScreens(d, None)[1].ListScreen? && |InitScreens(d, None)[1].entries| == |s| - 1)
  {
    RemoveThenGet(s, Str(id));
    StoredStoriesListed(Removed(s, Str(id)));
  }

  class BookmarkPresenter {
    const db: Database
    /** Every value the container's markup was set to, in order. */
    var screens: seq<Screen>

    constructor (db: Database)
      ensures this.db == db && screens == []
    {
      this.db := db;
      screens := [];
    }

    method Init(fault: Option<Exception>)
      modifies this`screens
      ensures screens == old(screens) + InitScreens(db.stories, fault)
    {
      screens := screens + [Loader];
      var saved := db.GetAllStory(fault);
      match saved {
        case Abrupt(e) =>
          screens := screens + [ErrorScreen(ErrorText(e))];
        case Normal(v) =>
          if !Truthy(v) || Prop(v, "length") == Num(0.0) {
            screens := screens + [EmptyScreen];
          } else {
            screens := screens + [ScreenFor(v)];
          }
      }
    }

    /** A remove button's click handler, with the button's `data-id`: the
        store deletes it and the list is rendered again; a failed delete
        rejects the handler and nothing is rendered. */
    method RemoveClicked(id: string, removeFault: Option<Exception>, listFault: Option<Exception>)
      requires db.Valid()
      modifies db, this`screens
      ensures db.Valid()
      ensures db.stories == Delete(old(db.stories), Str(id), removeFault).1
      ensures Delete(old(db.stories), Str(id), removeFault).0.Abrupt? ==> screens == old(screens)
      ensures Delete(old(db.stories), Str(id), removeFault).0.Normal? ==>
                screens == old(screens) + InitScreens(db.stories, listFault)
    {
      var removed := db.RemoveStory(Str(id), removeFault);
      if removed.Abrupt? {
        return;
      }
      Init(listFault);
    }
  }
}
