/** The meal search screen: its two state cells (the query and the result
    list), the transitions the user triggers on them, and the choice of what
    the screen shows. */
module App {
  import opened Wrappers
  import opened Meals

  // ---------------------------------------------------------------------------
  // Finding the tapped item
  // ---------------------------------------------------------------------------

  /** `findIndex` by `idMeal`: the first position whose item has the given id,
      or -1 when there is none. */
  function FindIndex(items: seq<Meal>, id: string): (k: int)
    ensures -1 <= k < |items|
    ensures 0 <= k ==> items[k].record.idMeal == id
    ensures 0 <= k ==> forall j :: 0 <= j < k ==> items[j].record.idMeal != id
    ensures k == -1 <==> forall j :: 0 <= j < |items| ==> items[j].record.idMeal != id
    decreases |items|
  {
    if items == [] then -1
    else if items[0].record.idMeal == id then 0
    else
      var k := FindIndex(items[1..], id);
      if k == -1 then -1 else k + 1
  }

  /** Two lists whose items carry the same ids position by position lead
      `findIndex` to the same answer. */
  lemma FindIndexByIds(a: seq<Meal>, b: seq<Meal>, id: string)
    requires |a| == |b|
    requires forall i :: 0 <= i < |a| ==> a[i].record.idMeal == b[i].record.idMeal
    ensures FindIndex(a, id) == FindIndex(b, id)
  {
  }

  /** The linear search `findIndex` performs, over the copied array. */
  method FindIndexIn(a: array<Meal>, id: string) returns (k: int)
    ensures k == FindIndex(a[..], id)
    ensures -1 <= k < a.Length
  {
    var i := 0;
    while i < a.Length
      invariant 0 <= i <= a.Length
      invariant forall j :: 0 <= j < i ==> a[j].record.idMeal != id
    {
      if a[i].record.idMeal == id {
        return i;
      }
      i := i + 1;
    }
    return -1;
  }

  // ---------------------------------------------------------------------------
  // The expansion toggle on the result list
  // ---------------------------------------------------------------------------

  /** The two ways the toggle handler throws. */
  datatype TypeError =
    | NotIterable         // spreading a `null` result list
    | UndefinedItem       // `hasOwnProperty` on the item `findIndex` did not find

  /** Every item of the list has an annotation shape the screen produces. */
  predicate AllWellAnnotated(items: seq<Meal>) {
    forall i :: 0 <= i < |items| ==> WellAnnotated(items[i])
  }

  /** What the toggle handler does to the result list, as a value: the list
      with the annotation of the first item carrying `id` flipped, or the
      exception it throws. */
  function ToggleExpansion(list: Option<seq<Meal>>, id: string): (r: Result<seq<Meal>, TypeError>)
    ensures list.None? ==> r == Failure(NotIterable)
    ensures list.Some? ==>
      (r == Failure(UndefinedItem) <==> forall j :: 0 <= j < |list.value| ==> list.value[j].record.idMeal != id)
    ensures r.Success? <==> list.Some? && FindIndex(list.value, id) != -1
    ensures r.Success? ==> list.Some? && |r.value| == |list.value|
    ensures r.Success? ==>
      var k := FindIndex(list.value, id);
      && 0 <= k
      && r.value[k] == ToggleAnnotation(list.value[k])
      && forall j :: 0 <= j < |r.value| && j != k ==> r.value[j] == list.value[j]
  {
    match list
    case None => Failure(NotIterable)
    case Some(items) =>
      var k := FindIndex(items, id);
      if k == -1 then Failure(UndefinedItem)
      else Success(items[k := ToggleAnnotation(items[k])])
  }

  /** Toggling never changes a record, only annotations. */
  lemma ToggleExpansionKeepsRecords(items: seq<Meal>, id: string)
    requires ToggleExpansion(Some(items), id).Success?
    ensures forall i :: 0 <= i < |items| ==>
      ToggleExpansion(Some(items), id).value[i].record == items[i].record
  {
  }

  /** The toggle keeps every annotation in one of the two shapes. */
  lemma ToggleExpansionKeepsWellAnnotated(items: seq<Meal>, id: string)
    requires AllWellAnnotated(items)
    requires ToggleExpansion(Some(items), id).Success?
    ensures AllWellAnnotated(ToggleExpansion(Some(items), id).value)
  {
  }

  /** Tapping the same item twice gives back the list it started from. */
  lemma {:induction false} ToggleExpansionTwice(items: seq<Meal>, id: string)
    requires AllWellAnnotated(items)
    requires ToggleExpansion(Some(items), id).Success?
    ensures ToggleExpansion(Some(ToggleExpansion(Some(items), id).value), id) == Success(items)
  {
    var once := ToggleExpansion(Some(items), id).value;
    var k := FindIndex(items, id);
    ToggleExpansionKeepsRecords(items, id);
    FindIndexByIds(once, items, id);
    assert FindIndex(once, id) == k;
    assert WellAnnotated(items[k]);
    ToggleTwice(items[k]);
    var twice := ToggleExpansion(Some(once), id).value;
    assert twice == once[k := ToggleAnnotation(once[k])];
    assert twice == items;
  }

  // ---------------------------------------------------------------------------
  // What the screen shows
  // ---------------------------------------------------------------------------

  /** Text of the placeholder shown when a search found nothing. */
  const NoResultsMessage: string := "No results founds"

  /** The three things the screen can show under the search box. */
  datatype Screen =
    | ResultList(rows: seq<Row>)
    | NoResults(message: string)
    | Blank

  /** True when the result list is non-null and has at least one item. */
  predicate HasItems(list: Option<seq<Meal>>) {
    list.Some? && |list.value| > 0
  }

  /** The list when it has items; otherwise the placeholder when the query is
      non-empty; otherwise nothing. Each row is rendered from its item. */
  function SelectScreen(query: string, list: Option<seq<Meal>>): (v: Screen)
    ensures v.ResultList? <==> HasItems(list)
    ensures v.NoResults? <==> !HasItems(list) && query != ""
    ensures v.Blank? <==> !HasItems(list) && query == ""
    ensures v.ResultList? ==>
      && |v.rows| == |list.value|
      && forall i :: 0 <= i < |v.rows| ==> v.rows[i] == RenderRow(list.value[i])
    ensures v.NoResults? ==> v.message == NoResultsMessage
  {
    if HasItems(list) then
      var items := list.value;
      ResultList(seq(|items|, i requires 0 <= i < |items| => RenderRow(items[i])))
    else if query != "" then
      NoResults(NoResultsMessage)
    else
      Blank
  }

  /** After a toggle the list still shows, with the same number of rows; the
      tapped row flips between "See more" and "See less", keeps its content,
      and every other row is exactly as before. */
  lemma ToggleChangesOneRow(query: string, items: seq<Meal>, id: string)
    requires AllWellAnnotated(items)
    requires ToggleExpansion(Some(items), id).Success?
    ensures
      var before := SelectScreen(query, Some(items));
      var after := SelectScreen(query, Some(ToggleExpansion(Some(items), id).value));
      var k := FindIndex(items, id);
      && before.ResultList? && after.ResultList?
      && |after.rows| == |before.rows|
      && after.rows[k].toggleText == (if before.rows[k].toggleText == SeeMore then SeeLess else SeeMore)
      && after.rows[k].title == before.rows[k].title
      && after.rows[k].description == before.rows[k].description
      && forall j :: 0 <= j < |after.rows| && j != k ==> after.rows[j] == before.rows[j]
  {
  }

  /** Where the search request goes once the debounce fires. */
  const SearchEndpoint: string := "https://www.themealdb.com/api/json/v1/1/search.php?s="

  /** The request the debounce arms for a query: none for the empty query,
      otherwise the endpoint with the query appended as is. */
  function ArmedSearch(query: string): (url: Option<string>)
    ensures url.Some? <==> query != ""
    ensures url.Some? ==>
      && |url.value| == |SearchEndpoint| + |query|
      && url.value[..|SearchEndpoint|] == SearchEndpoint
      && url.value[|SearchEndpoint|..] == query
  {
    if query != "" then Some(SearchEndpoint + query) else None
  }

  /** Different queries arm different requests. */
  lemma ArmedSearchInjective(a: string, b: string)
    requires ArmedSearch(a) == ArmedSearch(b)
    ensures a == b
  {
  }

  /** The items a search response puts into the list: the response's meals,
      unannotated, or `null` when it has none. */
  function Received(meals: Option<seq<MealRecord>>): (list: Option<seq<Meal>>)
    ensures list.Some? <==> meals.Some?
    ensures list.Some? ==>
      && |list.value| == |meals.value|
      && forall i :: 0 <= i < |list.value| ==> list.value[i] == Unannotated(meals.value[i])
  {
    match meals
    case None => None
    case Some(recs) => Some(seq(|recs|, i requires 0 <= i < |recs| => Unannotated(recs[i])))
  }

  // ---------------------------------------------------------------------------
  // The controller
  // ---------------------------------------------------------------------------

  /** What the toggle handler did. */
  datatype Outcome = Completed | Threw(error: TypeError)

  /** The screen's state: the query text and the result list, which is `null`
      after a response without meals. */
  class SearchScreen {
    var searchVal: string
    var searchedList: Option<seq<Meal>>

    /** Every item the screen holds carries an annotation shape it produced. */
    ghost predicate Valid()
      reads this
    {
      searchedList.Some? ==> AllWellAnnotated(searchedList.value)
    }

    /** What the screen shows in the current state. */
    function CurrentScreen(): Screen
      reads this
    {
      SelectScreen(searchVal, searchedList)
    }

    /** Both cells start empty: an empty query and an empty list. */
    constructor ()
      ensures Valid()
      ensures searchVal == "" && searchedList == Some([])
      ensures CurrentScreen() == Blank
    {
      searchVal := "";
      searchedList := Some([]);
    }

    /** A keystroke: the query becomes the new text and the list is emptied. */
    method OnChangeTextInput(value: string)
      modifies this
      ensures searchVal == value && searchedList == Some([])
      ensures Valid()
      ensures CurrentScreen() == if value == "" then Blank else NoResults(NoResultsMessage)
    {
      searchVal := value;
      searchedList := Some([]);
    }

    /** The "X" button: the query becomes empty and the list is emptied. */
    method OnPressClear()
      modifies this
      ensures searchVal == "" && searchedList == Some([])
      ensures Valid()
      ensures CurrentScreen() == Blank
      ensures ArmedSearch(searchVal) == None
    {
      searchVal := "";
      searchedList := Some([]);
    }

    /** A search response lands: the list becomes its meals, or `null`. */
    method OnMealsReceived(meals: Option<seq<MealRecord>>)
      modifies this
      ensures searchVal == old(searchVal)
      ensures searchedList == Received(meals)
      ensures Valid()
      ensures meals.None? || meals.value == [] ==>
        CurrentScreen() == if searchVal == "" then Blank else NoResults(NoResultsMessage)
    {
      searchedList := Received(meals);
    }

    /** A tap on a row's toggleText: copy the list, find the first item with the
        tapped item's id, flip its annotation and store the copy. Throws, and
        leaves the state alone, when the list is `null` or no item matches. */
    method OnPressTextExpansion(selectedId: string) returns (outcome: Outcome)
      modifies this
      ensures searchVal == old(searchVal)
      ensures old(Valid()) ==> Valid()
      ensures match ToggleExpansion(old(searchedList), selectedId)
        case Success(toggled) => outcome == Completed && searchedList == Some(toggled)
        case Failure(e) => outcome == Threw(e) && searchedList == old(searchedList)
    {
      if searchedList.None? {
        return Threw(NotIterable);
      }
      var items := searchedList.value;
      var copyData := new Meal[|items|](i requires 0 <= i < |items| => items[i]);
      assert copyData[..] == items;
      var tappedItemIndex := FindIndexIn(copyData, selectedId);
      if tappedItemIndex == -1 {
        return Threw(UndefinedItem);
      }
      var tappedItem := copyData[tappedItemIndex];
      tappedItem := ToggleAnnotation(tappedItem);
      copyData[tappedItemIndex] := tappedItem;
      searchedList := Some(copyData[..]);
      if old(Valid()) {
        ToggleExpansionKeepsWellAnnotated(items, selectedId);
      }
      return Completed;
    }
  }
}
