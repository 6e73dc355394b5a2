# Cocktail search page: a Dafny model of its logic

The page (`src/app.jsx`) is a React front end over TheCocktailDB REST API.
This project models the two pieces of real logic it holds, and proves their
properties:

- **The search and selection state machine.** The page keeps four state
  variables: `cocktails`, `selectedCocktail`, `loading` and `error`. Three
  handlers change them. `handleCombinedSearch` searches by name and falls
  back to the ingredient filter. `handleRandomCocktail` fetches one random
  drink. `lookupCocktailDetails` fetches one drink by id. Here they are methods
  of the class `CocktailApp.App`. Each `fetch` is replaced by the `Response`
  it would give, passed in as a parameter. A ghost field `requests` logs every
  URL fetched, in order. The two view guards, the idle hint and the result
  grid, are predicates over that state.
- **The ingredient list of the detail view** (`getIngredientsAndMeasures`).
  This is a loop over the fifteen numbered ingredient/measure slots of a
  drink. It builds one display line per slot whose ingredient is truthy.
  JavaScript truthiness and `String.prototype.trim` are modelled exactly (the
  full WhiteSpace and LineTerminator sets of ECMAScript, sections 12.2 and
  12.3).

Modules, one file each:

- `wrappers.dfy`, module `Wrappers`: the `Option` type. `None` stands for
  `null` and `undefined`.
- `js_string.dfy`, module `JsString`: trim, white space and truthiness.
- `recipe.dfy`, module `Recipe`: the cocktail record and the ingredient lines.
- `api.dfy`, module `Api`: the four endpoint URLs and what a fetch can return.
- `app.dfy`, module `CocktailApp`: the page state and its handlers.

Where the upstream design (a written description of the page that came with
the code) and the code disagree, the model follows the code:

- **Fallback after a failure.** The design says a failed name search stops
  the search. In the code, `fetchCocktails` turns the failure into `null`
  (`src/app.jsx:80`), and the ingredient filter is then tried like after an
  empty answer.
- **Both searches fail.** The result is "no cocktails found", not a network
  error. The final message overwrites the fetch-failure message.
- **Failures keep the selection.** The design says a failure clears what is
  on screen. In the code, a failed random pick or lookup keeps the previously
  selected drink, and a failed lookup also keeps the list.
- **One state per variable.** The design suggests a single tagged state. The
  code has four independent variables, and the model keeps all four.
- **Truthiness before trimming.** The design says a line is listed only when
  the ingredient is non-empty after trimming. The code tests the untrimmed
  ingredient (`src/app.jsx:153`), so an ingredient of white space only still
  gives a line, empty or the trimmed measure and a space (`WhiteSpaceSlot`).

One further behaviour follows from the contracts of the view guards.
After a search with two or more results, the idle hint
("Type a cocktail name...") shows together with the result grid. After any
search that gets past the blank-term guard, the hint shows exactly when the
grid does (`HandleCombinedSearch`).

## Model

| member | source | states |
|---|---|---|
| `JsString.TrimStartSpec` | src/app.jsx:154 | removing leading white space keeps a suffix that does not start with white space, and everything cut off is white space |
| `JsString.TrimEndSpec` | src/app.jsx:154 | removing trailing white space keeps a prefix that does not end with white space, and everything cut off is white space |
| `JsString.TrimSpec` | src/app.jsx:154 | `trim()` gives a contiguous middle of the string, with no white space at either end and only white space around it |
| `JsString.TrimBlank` | src/app.jsx:88 | `searchTerm.trim()` is empty (falsy) exactly when every character of the term is white space |
| `JsString.TrimOfTrimmed` | src/app.jsx:98 | trimming a string with no white space at either end leaves it unchanged |
| `JsString.TrimIdempotent` | src/app.jsx:98 | trimming the already trimmed term changes nothing |
| `JsString.TrimStartAfter` | src/app.jsx:154 | leading white space in front of a non-white-space start is exactly what is stripped |
| `JsString.TrimEndBefore` | src/app.jsx:154 | trailing white space after a non-white-space end is exactly what is stripped |
| `JsString.TrimSurrounded` | src/app.jsx:154 | any white space around a trimmed string is removed and the string itself is kept |
| `Recipe.Line` | src/app.jsx:154 | a display line always ends with the trimmed ingredient, and it is the trimmed ingredient alone exactly when the measure is falsy (null, undefined or empty) |
| `Recipe.BlankMeasureLine` | src/app.jsx:154 | a measure of white space only is truthy, so the line is a single space followed by the trimmed ingredient |
| `Recipe.IngredientSlotsSpec` | src/app.jsx:150-155 | the slots that yield a line are those among 1..15 with a truthy ingredient, each once, in strictly increasing order, at most fifteen |
| `Recipe.GetIngredientsAndMeasures` | src/app.jsx:148-158 | the loop returns the line of every slot with a truthy ingredient, in slot order, with at most fifteen lines |
| `Recipe.NoMoreSlots` | src/app.jsx:150-153 | slots without a truthy ingredient add no line, whatever their measure |
| `Recipe.OnlySlotsOneThreeSeven` | src/app.jsx:148-158 | a drink whose only ingredients are in slots 1, 3 and 7 gets exactly three lines, for slots 1, 3 and 7 in that order |
| `Recipe.WhiteSpaceSlot` | src/app.jsx:153-154 | truthiness is tested before trimming: a slot whose ingredient is non-empty white space is among the listed slots, and its line is empty or, with a truthy measure, the trimmed measure followed by a space |
| `Recipe.TrimmedSlot` | src/app.jsx:154 | whatever white space surrounds the ingredient and a non-blank measure, the line is the bare measure, one space and the bare ingredient |
| `Api.UrlRoundTrip` | src/app.jsx:101-165 | each URL the page builds (lines 101, 105, 129, 165) reads back as the endpoint and the unencoded term or id it was built from |
| `Api.UrlInjective` | src/app.jsx:101-165 | two requests give the same URL exactly when they are the same request, so the URL log determines which requests were made |
| `CocktailApp.SearchResults` | src/app.jsx:101-108 | the name search wins when it finds drinks; a failed name search still falls back to the ingredient filter; the two results are never merged; there are no results only when neither search found any |
| `CocktailApp.App.constructor` | src/app.jsx:52-56 | the initial state has no drinks, no selection, no loading and no message; the idle hint is shown and the grid is not |
| `CocktailApp.App.FetchCocktails` | src/app.jsx:65-84 | fetches the URL once and clears the list and the selection; returns the drinks on success, or null with the fetch-failure message when the fetch threw or the status was not ok; ends not loading |
| `CocktailApp.App.HandleCombinedSearch` | src/app.jsx:87-119 | a blank term only sets the message "enter a search term": no request is made and nothing else changes. Otherwise the name search with the trimmed term is fetched first, and the ingredient filter second exactly when the name search found nothing or failed. Non-empty results become the list, with no message, and are selected exactly when there is one. No results leave an empty list, no selection and "no cocktails found". The search ends not loading, and the grid (and the idle hint) shows exactly when there are two or more results |
| `CocktailApp.App.HandleRandomCocktail` | src/app.jsx:122-145 | fetches random.php once and always empties the list. A drink in the answer becomes the selection. An empty answer gives "failed random" and a failed fetch gives "failed to fetch", and both keep the previous selection. It ends not loading |
| `CocktailApp.App.IdleHintShown` | src/app.jsx:285 | the "type a cocktail name" hint shows when nothing is loading, there is no message and no drink is selected; the constructor and `HandleCombinedSearch` state when it holds |
| `CocktailApp.App.ResultListShown` | src/app.jsx:292 | the result grid shows when the list is non-empty and no drink is selected; `HandleCombinedSearch` states that it holds exactly after two or more results, and `HandleRandomCocktail` that it never holds after a random pick |
| `CocktailApp.App.LookupCocktailDetails` | src/app.jsx:161-179 | fetches lookup.php with the id once and ignores the status. A drink in the body becomes the selection and empties the list (replace, not append). No drink gives "could not find details" and keeps list and selection; a fetch or JSON failure gives "failed to fetch" and keeps both. It ends not loading and keeps a selection consistent with the list |

The view guards `App.IdleHintShown` (`src/app.jsx:285`) and
`App.ResultListShown` (`src/app.jsx:292`) are plain predicates over the
state. Their consequences are stated in the contracts of the constructor, of
`HandleCombinedSearch` and of `HandleRandomCocktail`. `App.Consistent`
states that a selected drink never sits beside a list of other drinks. It
holds after every search and random pick, and every lookup preserves it.

## Left out

- Network I/O. `fetch`, `response.json()` and `console.error`
  (`src/app.jsx:71-80`, `129-141`, `165-175`) are not modelled. Each call's
  outcome is a `Response` parameter: `Threw` for a rejected fetch or an
  unreadable body, `Answered(ok, drinks)` otherwise. The URL is only recorded
  in the ghost `requests` log.
- Asynchrony. The model leaves out the interleaving of `await`s, React's
  batching of state updates, and stale responses that land after a newer
  action. Each handler runs as one sequential block in which the last write
  to a variable wins.
- The `translations` table and the `language` state (`src/app.jsx:4-47`,
  `57`, `60`). These are presentation strings, so messages are the
  `Message` enumeration.
- JSX markup, CSS, the image placeholder on load errors and the footer
  (`src/app.jsx:183-323`). UI only. Of the markup, only the two guards at
  lines 285 and 292 are modelled.
- The wiring of the search input (`onChange`, `onKeyPress`). The search term
  is a parameter of `HandleCombinedSearch`.
- Record fields that are only displayed: name, thumbnail, category, glass,
  type and instructions. A `Cocktail` holds its id and its ingredient and
  measure slots.
- Response bodies outside the API's documented shape. `drinks` is assumed to
  be an array, `null` or missing. A body whose `drinks` is some other value
  (such as a string) is not modelled. Slot values are assumed to be strings,
  `null` or missing.
- What the API does with an unencoded term (`&`, `#`, spaces). Its effect on
  the HTTP request is left out; the model, like the code, concatenates the
  raw term.
