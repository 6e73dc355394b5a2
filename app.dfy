/**
 * The page's state and the three handlers that change it. Each handler is
 * one sequential run: every state setter is an assignment and the last write
 * wins. The network is abstracted to the `Response` each `fetch` would give,
 * passed in as a parameter, and a ghost log records every URL fetched.
 */
module CocktailApp {
  import opened Wrappers
  import opened JsString
  import opened Recipe
  import opened Api

  /** The message in the error box; `NoError` is the empty string, which hides the box. */
  datatype Message =
    | NoError
    | EnterSearchTerm
    | FailedToFetch
    | NoCocktailsFound
    | FailedRandom
    | CouldNotFindDetails

  /** What `fetchCocktails` hands back for a response: its drinks when it succeeded, `null` otherwise. */
  function Fetched(response: Response): Option<seq<Cocktail>> {
    if Succeeded(response) then response.drinks else None
  }

  /** The name search found nothing, or failed: the ingredient filter is tried. */
  predicate NeedsFallback(byName: Response) {
    !HasDrinks(Fetched(byName))
  }

  /**
   * The drinks a combined search settles on: the name search's when it found
   * any, otherwise the ingredient filter's. The two are never merged.
   */
  function SearchResults(byName: Response, byIngredient: Response): (results: Option<seq<Cocktail>>)
    ensures HasDrinks(Fetched(byName)) ==> results == Fetched(byName)
    ensures !Succeeded(byName) ==> results == Fetched(byIngredient)
    ensures HasDrinks(results) ==> results == Fetched(byName) || results == Fetched(byIngredient)
    ensures !HasDrinks(results) <==> !HasDrinks(Fetched(byName)) && !HasDrinks(Fetched(byIngredient))
  {
    if NeedsFallback(byName) then Fetched(byIngredient) else Fetched(byName)
  }

  class App {
    var cocktails: seq<Cocktail>
    var selectedCocktail: Option<Cocktail>
    var loading: bool
    var error: Message
    /** The URLs fetched so far, oldest first. */
    ghost var requests: seq<string>

    /** The initial state: no drinks, nothing selected, not loading, no message. */
    constructor ()
      ensures cocktails == [] && selectedCocktail == None && !loading && error == NoError
      ensures requests == []
      ensures Consistent() && IdleHintShown() && !ResultListShown()
    {
      cocktails := [];
      selectedCocktail := None;
      loading := false;
      error := NoError;
      requests := [];
    }

    /** A selected cocktail never sits beside a list of other drinks: the list is then empty or just that cocktail. */
    ghost predicate Consistent()
      reads this
    {
      selectedCocktail.Some? ==> cocktails == [] || cocktails == [selectedCocktail.value]
    }

    /** The "type a cocktail name" hint under the search box. */
    predicate IdleHintShown()
      reads this
    {
      !loading && error == NoError && selectedCocktail.None?
    }

    /** The grid of search results. */
    predicate ResultListShown()
      reads this
    {
      |cocktails| > 0 && selectedCocktail.None?
    }

    /**
     * `fetchCocktails`: clears the list and the selection, fetches `url`, and
     * hands back the drinks, or `null` with the fetch-failure message when the
     * fetch threw or the status was not ok.
     */
    method FetchCocktails(url: string, response: Response) returns (results: Option<seq<Cocktail>>)
      modifies this
      ensures requests == old(requests) + [url]
      ensures Succeeded(response) ==> results == response.drinks && error == NoError
      ensures !Succeeded(response) ==> results == None && error == FailedToFetch
      ensures cocktails == [] && selectedCocktail == None && !loading
    {
      loading := true;
      error := NoError;
      cocktails := [];
      selectedCocktail := None;
      requests := requests + [url];
      if Succeeded(response) {
        results := response.drinks;
      } else {
        error := FailedToFetch;
        results := None;
      }
      loading := false;
    }

    /**
     * `handleCombinedSearch`. A blank term only sets the message. Otherwise the
     * trimmed term is searched by name and, when that gives nothing (or fails),
     * by ingredient; a non-empty result becomes the list, a single drink is
     * also selected, and no result at all ends in "no cocktails found", even
     * when a fetch failed.
     */
    method HandleCombinedSearch(searchTerm: string, byName: Response, byIngredient: Response)
      modifies this
      ensures Trim(searchTerm) == [] ==>
        && error == EnterSearchTerm
        && cocktails == old(cocktails) && selectedCocktail == old(selectedCocktail)
        && loading == old(loading) && requests == old(requests)
      ensures var term := Trim(searchTerm);
        term != [] ==>
          requests == old(requests) + [Url(SearchByName(term))]
                      + (if NeedsFallback(byName) then [Url(FilterByIngredient(term))] else [])
      ensures var results := SearchResults(byName, byIngredient);
        Trim(searchTerm) != [] && HasDrinks(results) ==>
          && cocktails == results.value && error == NoError
          && selectedCocktail == (if |results.value| == 1 then Some(results.value[0]) else None)
      ensures Trim(searchTerm) != [] && !HasDrinks(SearchResults(byName, byIngredient)) ==>
        cocktails == [] && selectedCocktail == None && error == NoCocktailsFound
      ensures Trim(searchTerm) != [] ==> !loading && Consistent()
      ensures Trim(searchTerm) != [] ==> (ResultListShown() <==> |cocktails| > 1)
      ensures Trim(searchTerm) != [] ==> (IdleHintShown() <==> ResultListShown())
    {
      if Trim(searchTerm) == [] {
        error := EnterSearchTerm;
        return;
      }
      loading := true;
      error := NoError;
      cocktails := [];
      selectedCocktail := None;
      var term := Trim(searchTerm);
      var results := FetchCocktails(Url(SearchByName(term)), byName);
      if !HasDrinks(results) {
        results := FetchCocktails(Url(FilterByIngredient(term)), byIngredient);
      }
      if HasDrinks(results) {
        cocktails := results.value;
        if |results.value| == 1 {
          selectedCocktail := Some(results.value[0]);
        }
      } else {
        cocktails := [];
        error := NoCocktailsFound;
      }
      loading := false;
    }

    /**
     * `handleRandomCocktail`: always empties the list; a drink in the answer
     * becomes the selection, and on either failure the previous selection stays
     * on screen beside the message.
     */
    method HandleRandomCocktail(response: Response)
      modifies this
      ensures requests == old(requests) + [Url(RandomPick)]
      ensures cocktails == [] && !loading && Consistent()
      ensures Succeeded(response) && HasDrinks(response.drinks) ==>
        selectedCocktail == Some(response.drinks.value[0]) && error == NoError
      ensures Succeeded(response) && !HasDrinks(response.drinks) ==>
        selectedCocktail == old(selectedCocktail) && error == FailedRandom
      ensures !Succeeded(response) ==>
        selectedCocktail == old(selectedCocktail) && error == FailedToFetch
      ensures !ResultListShown()
    {
      loading := true;
      error := NoError;
      cocktails := [];
      requests := requests + [Url(RandomPick)];
      if !Succeeded(response) {
        error := FailedToFetch;
      } else if HasDrinks(response.drinks) {
        selectedCocktail := Some(response.drinks.value[0]);
      } else {
        error := FailedRandom;
      }
      loading := false;
    }

    /**
     * `lookupCocktailDetails`: the status is not checked, so any body that reads
     * as JSON counts. A drink in it replaces the list as the selection; no drink,
     * or a failure, leaves the list and the selection as they were. `id` is the
     * `idDrink` of the card the user clicked in the result list.
     */
    method LookupCocktailDetails(id: string, response: Response)
      modifies this
      ensures requests == old(requests) + [Url(LookupById(id))]
      ensures !loading
      ensures response.Answered? && HasDrinks(response.drinks) ==>
        selectedCocktail == Some(response.drinks.value[0]) && cocktails == [] && error == NoError
      ensures response.Answered? && !HasDrinks(response.drinks) ==>
        && selectedCocktail == old(selectedCocktail) && cocktails == old(cocktails)
        && error == CouldNotFindDetails
      ensures response.Threw? ==>
        selectedCocktail == old(selectedCocktail) && cocktails == old(cocktails) && error == FailedToFetch
      ensures old(Consistent()) ==> Consistent()
    {
      loading := true;
      error := NoError;
      requests := requests + [Url(LookupById(id))];
      match response {
        case Threw =>
          error := FailedToFetch;
        case Answered(_, drinks) =>
          if HasDrinks(drinks) {
            selectedCocktail := Some(drinks.value[0]);
            cocktails := [];
          } else {
            error := CouldNotFindDetails;
          }
      }
      loading := false;
    }
  }
}
