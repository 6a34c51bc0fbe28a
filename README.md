# Meal search screen: state logic

A model, in Dafny, of the state logic under the single screen of a recipe
search app. The screen holds two state cells: the query text `searchVal` and
the result list `searchedList`. The result list starts empty and becomes
`null` when a search response carries no meals. Four kinds of transition act
on these cells:

- a keystroke, which sets the query and empties the list;
- the "X" button, which clears the query and empties the list;
- the arrival of a search response, which replaces the list with its meals;
- a tap on a row's "See more"/"See less" text.

A tap copies the list and finds the first item whose `idMeal` equals the
tapped item's id. It then flips that item's presentation annotation, the
property pair `numberOfLines = 0` / `expansionText = "See less"`. When the
annotation is absent, the tap adds it. When `numberOfLines` is present, the
tap deletes both properties. Two pure choices read the state:

- the screen shows the list when it has items, the "No results founds"
  placeholder when it has none and the query is non-empty, and nothing
  otherwise;
- each row shows `numberOfLines ?? 2` lines and the label
  `expansionText ?? "See more"`.

Layout:

- `wrappers.dfy` (module `Wrappers`): `Option` for JavaScript's absent
  properties and `null`, and `Result` for an operation that may throw.
- `meals.dfy` (module `Meals`): the meal record and its annotation, the
  toggle on one item, and the rendering of one row.
- `app.dfy` (module `App`): `findIndex`, the toggle on the list, the choice
  of screen, the request the debounce arms, and the `SearchScreen` class with
  the two state cells and the four handlers.

Items are values. A meal is its fetched record (`idMeal`, `strMeal`,
`strMealThumb`, `strInstructions`) plus two optional fields, one per
annotation property. `WellAnnotated` names the two annotation shapes the
screen ever produces. `SearchScreen.Valid` says that every item in the list
has one of them. Every handler keeps that invariant.

The toggle's two exceptions are modelled as results, not excluded by a
precondition. Spreading a `null` list throws (`NotIterable`). When no item
has the id, `findIndex` gives -1 and `hasOwnProperty` is called on
`undefined` (`UndefinedItem`). In both cases the state is left unchanged.
When two items share an id, a tap on either one flips the first of them.
`ToggleExpansion` states this: only position `FindIndex(list, id)` changes.

Two details of the code shape the model:

- The list may be `null`. The response handler stores
  `responseData?.meals` as it is (App.js:35-36), and that field is `null`
  when a search finds nothing. So the list is an `Option`. With a `null`
  list the screen shows the placeholder or nothing, as for an empty one.
- The toggle tests `numberOfLines` alone (App.js:52) and deletes both
  properties (App.js:56-57). So `ToggleTwice` gives back the original item
  exactly when the item is `WellAnnotated`.

## Model

| member | source | states |
|---|---|---|
| `Meals.ToggleAnnotation` | App.js:52-58 | the toggled item keeps its record, is expanded exactly when the original was not, and carries one of the two annotation shapes |
| `Meals.ToggleAddsAnnotation` | App.js:52-54 | an item without `numberOfLines` gets `numberOfLines = 0` and `expansionText = "See less"`, and nothing else changes |
| `Meals.ToggleRemovesAnnotation` | App.js:55-58 | an item with `numberOfLines` loses both `numberOfLines` and `expansionText`, whatever `expansionText` held |
| `Meals.ToggleTwice` | App.js:52-58 | toggling twice gives back the item if and only if its annotation is absent or exactly the pair the toggle adds |
| `Meals.RenderRow` | App.js:63-86 | the row shows the record's thumbnail, title and description; its line count is `numberOfLines` when present and 2 otherwise; its label is `expansionText` when present and "See more" otherwise |
| `Meals.RowOfUnannotated` | App.js:63-86 | a freshly fetched item renders its thumbnail, title and description with 2 lines and the label "See more" |
| `Meals.RowShowsExpansion` | App.js:71-81 | for a well-annotated item the row shows 0 (unlimited) lines and "See less" when expanded, and 2 lines and "See more" when collapsed |
| `Meals.RowAfterToggle` | App.js:52-81 | a tap flips the row's line count and label, keeps its title, description and thumbnail, and a second tap restores the row |
| `App.FindIndex` | App.js:48-50 | the first position whose `idMeal` equals the id, with no match before it; -1 exactly when no item has the id |
| `App.FindIndexByIds` | App.js:48-50 | two lists whose items have the same `idMeal` position by position give the same `findIndex` answer |
| `App.FindIndexIn` | App.js:48-50 | the linear search over the copied array returns the first matching index, or -1 |
| `App.ToggleExpansion` | App.js:46-61 | a `null` list throws `NotIterable`; a list without the id throws `UndefinedItem`; the toggle succeeds exactly when the list is non-null and some item has the id; then the list keeps its length, the first item with the id is toggled, and every other position is unchanged |
| `App.ToggleExpansionKeepsRecords` | App.js:47-59 | a toggle changes no record field of any item, only annotations |
| `App.ToggleExpansionKeepsWellAnnotated` | App.js:52-58 | a toggle keeps every item's annotation in one of the two shapes |
| `App.ToggleExpansionTwice` | App.js:46-61 | tapping the same item twice gives back the original list |
| `App.SelectScreen` | App.js:111-121 | the rows, one per item and in order, exactly when the list is non-null and non-empty; the "No results founds" placeholder exactly when it is null or empty and the query is non-empty; nothing exactly when it is null or empty and the query is empty |
| `App.ToggleChangesOneRow` | App.js:46-121 | after a tap the list is still shown with as many rows; the tapped row swaps "See more" and "See less" and keeps its title and description; every other row is identical |
| `App.ArmedSearch` | App.js:17-32 | a request is armed exactly when the query is non-empty, and its URL is the search endpoint followed by the query, unencoded |
| `App.ArmedSearchInjective` | App.js:30-32 | different queries arm different request URLs |
| `App.Received` | App.js:33-36 | a response without meals makes the list `null`; otherwise the list holds the response's meals in order, unannotated |
| `App.SearchScreen.constructor` | App.js:13-14 | the query starts empty, the list starts empty, and the screen shows nothing |
| `App.SearchScreen.OnChangeTextInput` | App.js:40-43 | the query becomes the new text and the list becomes empty, so the screen shows the placeholder for a non-empty text and nothing for an empty one |
| `App.SearchScreen.OnPressClear` | App.js:101-105 | the query becomes "" and the list becomes empty, so the screen shows nothing and no search is armed |
| `App.SearchScreen.OnMealsReceived` | App.js:33-36 | the list becomes the response's meals, or `null`, and the query is unchanged |
| `App.SearchScreen.OnPressTextExpansion` | App.js:46-61 | on success the list becomes `ToggleExpansion` of the old list; when the handler throws, the list is unchanged and the error is reported; the query is never touched and the annotation invariant is kept |

## Left out

- The debounce timer (App.js:17-27) is left out: the 500 ms `setTimeout`, its cancellation on re-render and React's effect lifecycle. `ArmedSearch` models only which request a query arms.
- The network request and JSON parsing in `fetchList` (App.js:29-37) are left out. The response's `meals` field is a parameter of `OnMealsReceived`. A rejected request or a parse failure is not modelled.
- The ordering between overlapping requests is not modelled. Responses land in whatever order `OnMealsReceived` is called.
- The `onFocus` handler (App.js:96-98) is not modelled. It calls a setter the component never declares.
- Layout, styles and widget behaviour (App.js:88-178) are not modelled beyond the choice of screen and the content of each row.
- Object aliasing is not modelled. The source shallow-copies the array and then mutates the tapped item in place, and that item object is shared with the previous list. The model treats items as values, so only the new list's contents are described.
- `App.SearchScreen.OnPressTextExpansion` takes the tapped item's `idMeal` as a string. The case `selected` undefined (`selected?.idMeal`) and items without an `idMeal` are not modelled.
