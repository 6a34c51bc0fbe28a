/** One result item of the meal search: the record the search endpoint returns,
    the presentation annotation the screen attaches to it when a row is
    expanded, and what a row of the result list shows for it. */
module Meals {
  import opened Wrappers

  /** The four fields of a meal record that the screen reads. */
  datatype MealRecord = MealRecord(
    idMeal: string,
    strMeal: string,
    strMealThumb: string,
    strInstructions: string)

  /** A meal as it sits in the result list: the fetched record together with
      the two optional properties `numberOfLines` and `expansionText`, which
      the expansion toggle adds to and deletes from the same object. */
  datatype Meal = Meal(
    record: MealRecord,
    numberOfLines: Option<int>,
    expansionText: Option<string>)

  /** Line count of a collapsed description. */
  const DefaultLines: int := 2
  /** Line count of an expanded description; 0 means "no limit" to the text widget. */
  const UnlimitedLines: int := 0
  /** Label of the tappable text under a collapsed description. */
  const SeeMore: string := "See more"
  /** Label of the tappable text under an expanded description. */
  const SeeLess: string := "See less"

  /** A meal as it arrives from the search endpoint: no annotation. */
  function Unannotated(rec: MealRecord): Meal {
    Meal(rec, None, None)
  }

  /** The toggle decides by the presence of `numberOfLines` alone. */
  predicate IsExpanded(m: Meal) {
    m.numberOfLines.Some?
  }

  /** The two shapes an annotation takes on items the screen has produced:
      absent altogether, or exactly the pair the toggle adds. */
  predicate WellAnnotated(m: Meal) {
    || (m.numberOfLines == None && m.expansionText == None)
    || (m.numberOfLines == Some(UnlimitedLines) && m.expansionText == Some(SeeLess))
  }

  /** Flips the annotation of one item: adds `numberOfLines = 0` and
      `expansionText = "See less"` when `numberOfLines` is absent, and deletes
      both properties when it is present. The record itself is untouched. */
  function ToggleAnnotation(m: Meal): (r: Meal)
    ensures r.record == m.record
    ensures IsExpanded(r) == !IsExpanded(m)
    ensures WellAnnotated(r)
  {
    if !IsExpanded(m) then
      m.(numberOfLines := Some(UnlimitedLines), expansionText := Some(SeeLess))
    else
      m.(numberOfLines := None, expansionText := None)
  }

  /** Toggling an item without `numberOfLines` gives it the expanded pair. */
  lemma ToggleAddsAnnotation(m: Meal)
    requires !IsExpanded(m)
    ensures ToggleAnnotation(m) == m.(numberOfLines := Some(UnlimitedLines), expansionText := Some(SeeLess))
  {
  }

  /** Toggling an item with `numberOfLines` removes both properties, whatever
      `expansionText` held. */
  lemma ToggleRemovesAnnotation(m: Meal)
    requires IsExpanded(m)
    ensures ToggleAnnotation(m) == Unannotated(m.record)
  {
  }

  /** Toggling twice gives back exactly the item it started from if and only
      if that item's annotation had one of the two shapes the screen produces. */
  lemma ToggleTwice(m: Meal)
    ensures ToggleAnnotation(ToggleAnnotation(m)) == m <==> WellAnnotated(m)
  {
  }

  /** What one row of the result list shows. */
  datatype Row = Row(
    thumbnail: string,
    title: string,
    description: string,
    numberOfLines: int,
    toggleText: string)

  /** The row for one item: thumbnail, title and description from the record;
      the line count is `numberOfLines ?? 2` and the label `expansionText ?? "See more"`. */
  function RenderRow(m: Meal): (r: Row)
    ensures r.thumbnail == m.record.strMealThumb
    ensures r.title == m.record.strMeal
    ensures r.description == m.record.strInstructions
    ensures r.numberOfLines == (if m.numberOfLines.Some? then m.numberOfLines.value else DefaultLines)
    ensures r.toggleText == (if m.expansionText.Some? then m.expansionText.value else SeeMore)
  {
    Row(
      m.record.strMealThumb,
      m.record.strMeal,
      m.record.strInstructions,
      m.numberOfLines.GetOr(DefaultLines),
      m.expansionText.GetOr(SeeMore))
  }

  /** A fresh item shows two lines and "See more". */
  lemma RowOfUnannotated(rec: MealRecord)
    ensures RenderRow(Unannotated(rec)) == Row(rec.strMealThumb, rec.strMeal, rec.strInstructions, DefaultLines, SeeMore)
  {
  }

  /** On a well-annotated item the row reflects the expansion state exactly:
      collapsed rows show two lines and "See more", expanded rows show all lines
      and "See less". */
  lemma RowShowsExpansion(m: Meal)
    requires WellAnnotated(m)
    ensures RenderRow(m).numberOfLines == (if IsExpanded(m) then UnlimitedLines else DefaultLines)
    ensures RenderRow(m).toggleText == (if IsExpanded(m) then SeeLess else SeeMore)
  {
  }

  /** Tapping a row flips what it shows, keeps its content, and a second tap
      brings the row back. */
  lemma RowAfterToggle(m: Meal)
    requires WellAnnotated(m)
    ensures RenderRow(ToggleAnnotation(m)).toggleText == (if IsExpanded(m) then SeeMore else SeeLess)
    ensures RenderRow(ToggleAnnotation(m)).numberOfLines == (if IsExpanded(m) then DefaultLines else UnlimitedLines)
    ensures RenderRow(ToggleAnnotation(m)).title == RenderRow(m).title
    ensures RenderRow(ToggleAnnotation(m)).description == RenderRow(m).description
    ensures RenderRow(ToggleAnnotation(m)).thumbnail == RenderRow(m).thumbnail
    ensures RenderRow(ToggleAnnotation(ToggleAnnotation(m))) == RenderRow(m)
  {
  }
}
