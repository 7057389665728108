/**
 * The tracked-anime list of the page: an ordered sequence of records kept in
 * memory, written whole to storage after every change, rendered as cards
 * filtered by status, and changed by the add form and by the delete and edit
 * buttons on each card.
 *
 * Storage is an abstract `stored` copy of the list; rendering is the sequence
 * of records shown, or the placeholder message.
 */
module AnimeStore {
  import opened Wrappers

  /** One tracked anime, as `{title, image, status}`. */
  datatype Anime = Anime(title: string, image: string, status: string)

  /** What the list container shows: the "No anime to view yet" message, or cards in this order. */
  datatype View = Placeholder | Cards(shown: seq<Anime>)

  /** The filter value that shows every record. */
  const All: string := "All"

  /** The status reset into the form after a successful add. */
  const DefaultStatus: string := "Watching"

  /** The filter callback: `filter === "All" || anime.status === filter`. */
  predicate Matches(filter: string, a: Anime) {
    filter == All || a.status == filter
  }

  /** `animeList.filter(...)`: the records the filter keeps, in list order. */
  function Filter(list: seq<Anime>, filter: string): (r: seq<Anime>)
    ensures |r| <= |list|
    decreases |list|
  {
    if list == [] then []
    else if Matches(filter, list[0]) then [list[0]] + Filter(list[1..], filter)
    else Filter(list[1..], filter)
  }

  /** The view holds exactly the records of the list that match the filter. */
  lemma {:induction false} FilterMembers(list: seq<Anime>, filter: string)
    ensures forall a :: a in Filter(list, filter) <==> a in list && Matches(filter, a)
    decreases |list|
  {
    if list != [] {
      FilterMembers(list[1..], filter);
      assert list == [list[0]] + list[1..];
    }
  }

  /** Filtering distributes over concatenation, so an appended record shows up last when it matches. */
  lemma {:induction false} FilterAppend(a: seq<Anime>, b: seq<Anime>, filter: string)
    ensures Filter(a + b, filter) == Filter(a, filter) + Filter(b, filter)
    decreases |a|
  {
    if a == [] {
      assert a + b == b;
    } else {
      assert (a + b)[0] == a[0];
      assert (a + b)[1..] == a[1..] + b;
      FilterAppend(a[1..], b, filter);
    }
  }

  /** Under "All" the view is the whole list. */
  lemma {:induction false} FilterAll(list: seq<Anime>)
    ensures Filter(list, All) == list
    decreases |list|
  {
    if list != [] {
      FilterAll(list[1..]);
      assert list == [list[0]] + list[1..];
    }
  }

  /**
   * The position in `list` of the record shown on card `i` of the filtered
   * view: it holds that very record, and the record matches the filter.
   */
  function SourceIndex(list: seq<Anime>, filter: string, i: nat): (j: nat)
    requires i < |Filter(list, filter)|
    ensures i <= j < |list|
    ensures list[j] == Filter(list, filter)[i]
    ensures Matches(filter, list[j])
    decreases |list|
  {
    if Matches(filter, list[0]) then
      if i == 0 then 0 else 1 + SourceIndex(list[1..], filter, i - 1)
    else
      1 + SourceIndex(list[1..], filter, i)
  }

  /** Cards appear in list order: a later card comes from a later position of the list. */
  lemma {:induction false} SourceIndexMonotone(list: seq<Anime>, filter: string, i: nat, i': nat)
    requires i < i' < |Filter(list, filter)|
    ensures SourceIndex(list, filter, i) < SourceIndex(list, filter, i')
    decreases |list|
  {
    if Matches(filter, list[0]) {
      if i > 0 {
        SourceIndexMonotone(list[1..], filter, i - 1, i' - 1);
      }
    } else {
      SourceIndexMonotone(list[1..], filter, i, i');
    }
  }

  /** Under "All" card `i` shows the record at position `i` of the list. */
  lemma {:induction false} SourceIndexAll(list: seq<Anime>, i: nat)
    requires i < |Filter(list, All)|
    ensures SourceIndex(list, All, i) == i
    decreases |list|
  {
    if i > 0 {
      SourceIndexAll(list[1..], i - 1);
    }
  }

  /** `displayAnime(filter)`: the placeholder exactly when the list is empty, whatever the filter. */
  function Render(list: seq<Anime>, filter: string): (v: View)
    ensures v.Placeholder? <==> list == []
    ensures v.Cards? ==> forall a :: a in v.shown <==> a in list && Matches(filter, a)
  {
    FilterMembers(list, filter);
    if |list| == 0 then Placeholder else Cards(Filter(list, filter))
  }

  /** `splice(i, 1)`: drops position `i`; earlier records stay put and later ones move down by one. */
  function RemoveAt(list: seq<Anime>, i: nat): (r: seq<Anime>)
    requires i < |list|
    ensures |r| == |list| - 1
    ensures forall j :: 0 <= j < i ==> r[j] == list[j]
    ensures forall j :: i <= j < |r| ==> r[j] == list[j + 1]
    ensures multiset(r) + multiset{list[i]} == multiset(list)
  {
    assert list == list[..i] + [list[i]] + list[i + 1..];
    list[..i] + list[i + 1..]
  }

  /**
   * The removal the delete and edit buttons evidently intend: drop the
   * record on the clicked card, wherever it sits in the list.
   */
  function RemoveClicked(list: seq<Anime>, filter: string, i: nat): (r: seq<Anime>)
    requires i < |Filter(list, filter)|
    ensures |r| == |list| - 1
    ensures multiset(r) + multiset{Filter(list, filter)[i]} == multiset(list)
  {
    RemoveAt(list, SourceIndex(list, filter, i))
  }

  /** Under "All" the splice at the card's position removes exactly the clicked record. */
  lemma ClickedRemovedUnderAll(list: seq<Anime>, i: nat)
    requires i < |Filter(list, All)|
    ensures i < |list| && Filter(list, All)[i] == list[i]
    ensures RemoveAt(list, i) == RemoveClicked(list, All, i)
  {
    FilterAll(list);
    SourceIndexAll(list, i);
  }

  /**
   * Under the filter "Completed" over [A (Watching), B (Completed)] the only
   * card shows B, yet the splice at its position 0 removes A and keeps B.
   */
  lemma FilteredRemovalHitsOtherRecord()
    ensures var a := Anime("A", "a.png", "Watching");
            var b := Anime("B", "b.png", "Completed");
            Filter([a, b], "Completed") == [b]
            && RemoveAt([a, b], 0) == [b]
            && RemoveClicked([a, b], "Completed", 0) == [a]
  {
  }

  /** What the page reads from storage at load: the saved list, or an empty one. */
  function Loaded(saved: Option<seq<Anime>>): (list: seq<Anime>)
    ensures saved.None? ==> list == []
    ensures saved.Some? ==> list == saved.value
  {
    match saved
    case None => []
    case Some(l) => l
  }

  /**
   * The list, its stored copy, the three add-form fields and the list
   * container, with the filter it was last rendered with.
   */
  class Tracker {
    var animeList: seq<Anime>
    var stored: Option<seq<Anime>>
    var titleInput: string
    var imageInput: string
    var statusInput: string
    var filter: string
    var view: View

    /** The container shows the current list under the last filter used. */
    ghost predicate Rendered()
      reads this`view, this`animeList, this`filter
    {
      view == Render(animeList, filter)
    }

    /** Reloading the page would give back the list in memory. */
    ghost predicate Persisted()
      reads this`stored, this`animeList
    {
      Loaded(stored) == animeList
    }

    ghost predicate Valid()
      reads this`view, this`animeList, this`filter, this`stored
    {
      Rendered() && Persisted()
    }

    /** Page load: read the stored list (or start empty) and render it unfiltered. */
    constructor (saved: Option<seq<Anime>>)
      ensures Valid()
      ensures animeList == Loaded(saved) && stored == saved
      ensures filter == All
      ensures titleInput == "" && imageInput == "" && statusInput == DefaultStatus
    {
      animeList := Loaded(saved);
      stored := saved;
      titleInput, imageInput, statusInput := "", "", DefaultStatus;
      filter := All;
      view := Render(Loaded(saved), All);
    }

    /** The user typing into or choosing in the add form. */
    method FillForm(title: string, image: string, status: string)
      modifies this`titleInput, this`imageInput, this`statusInput
      ensures titleInput == title && imageInput == image && statusInput == status
    {
      titleInput, imageInput, statusInput := title, image, status;
    }

    /** `displayAnime(filter)`: re-renders the container; nothing else changes. */
    method DisplayAnime(f: string)
      modifies this`filter, this`view
      ensures Rendered()
      ensures filter == f && view == Render(animeList, f)
    {
      filter := f;
      view := Render(animeList, f);
    }

    /** `saveToLocalStorage()`: the whole list becomes the stored copy. */
    method Save()
      modifies this`stored
      ensures stored == Some(animeList)
    {
      stored := Some(animeList);
    }

    /**
     * The add button: with all three fields filled, append the record, save,
     * render unfiltered and reset the form; otherwise change nothing.
     */
    method Add() returns (added: bool)
      modifies this
      ensures added <==> old(titleInput) != "" && old(imageInput) != "" && old(statusInput) != ""
      ensures !added ==> unchanged(this)
      ensures added ==> animeList == old(animeList) + [Anime(old(titleInput), old(imageInput), old(statusInput))]
      ensures old(Valid()) ==> Valid()
      ensures added ==> stored == Some(animeList) && Valid() && filter == All
      ensures added ==> titleInput == "" && imageInput == "" && statusInput == DefaultStatus
    {
      var title, image, status := titleInput, imageInput, statusInput;
      if title != "" && image != "" && status != "" {
        animeList := animeList + [Anime(title, image, status)];
        Save();
        DisplayAnime(All);
        titleInput, imageInput, statusInput := "", "", DefaultStatus;
        added := true;
      } else {
        added := false;
      }
    }

    /**
     * The delete button of card `index`: once confirmed, splices the list at
     * `index` -- the card's position in the filtered view -- saves and
     * renders unfiltered.
     */
    method Delete(index: nat, confirmed: bool)
      requires Valid() && view.Cards? && index < |view.shown|
      modifies this
      ensures !confirmed ==> unchanged(this)
      ensures confirmed ==> index < |old(animeList)| && animeList == RemoveAt(old(animeList), index)
      ensures confirmed ==> stored == Some(animeList) && Valid() && filter == All
      ensures titleInput == old(titleInput) && imageInput == old(imageInput) && statusInput == old(statusInput)
    {
      if confirmed {
        animeList := RemoveAt(animeList, index);
        Save();
        DisplayAnime(All);
      }
    }

    /**
     * The edit button of card `index`: once confirmed, copies that card's
     * record into the form, then performs the same splice as delete.
     */
    method Edit(index: nat, confirmed: bool)
      requires Valid() && view.Cards? && index < |view.shown|
      modifies this
      ensures !confirmed ==> unchanged(this)
      ensures confirmed ==> titleInput == old(view.shown[index].title)
      ensures confirmed ==> imageInput == old(view.shown[index].image)
      ensures confirmed ==> statusInput == old(view.shown[index].status)
      ensures confirmed ==> index < |old(animeList)| && animeList == RemoveAt(old(animeList), index)
      ensures confirmed ==> stored == Some(animeList) && Valid() && filter == All
    {
      if confirmed {
        var anime := view.shown[index];
        titleInput, imageInput, statusInput := anime.title, anime.image, anime.status;
        animeList := RemoveAt(animeList, index);
        Save();
        DisplayAnime(All);
      }
    }
  }

  /** Reloading the page after any sequence of handlers gives back the list in memory. */
  method Reload(page: Tracker) returns (reloaded: Tracker)
    requires page.Valid()
    ensures fresh(reloaded)
    ensures reloaded.Valid() && reloaded.animeList == page.animeList && reloaded.filter == All
  {
    reloaded := new Tracker(page.stored);
  }

  /** Add, filter, delete and reload, checked against the contracts above. */
  method StoreScenario() {
    var naruto := Anime("Naruto", "n.jpg", "Watching");
    var page := new Tracker(None);
    assert page.view == Placeholder;

    page.FillForm("Naruto", "n.jpg", "Watching");
    var added := page.Add();
    assert added && page.animeList == [naruto];

    page.DisplayAnime("Completed");
    assert [naruto][1..] == [];
    assert page.view == Cards([]);

    page.DisplayAnime(All);
    assert page.view == Cards([naruto]);

    var reloaded := new Tracker(page.stored);
    assert reloaded.animeList == [naruto];

    page.Delete(0, true);
    assert page.animeList == [] && page.view == Placeholder && page.stored == Some([]);
    reloaded := Reload(page);
    assert reloaded.animeList == [];
  }
}
