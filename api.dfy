/**
 * The four endpoints of TheCocktailDB the page calls, and what a call can
 * come back with. Each request is one URL built by plain concatenation; the
 * term is not URL-encoded.
 */
module Api {
  import opened Wrappers
  import opened Recipe

  const BaseUrl: string := "https://www.thecocktaildb.com/api/json/v1/1/"

  datatype Request =
    | SearchByName(term: string)        // search.php?s=<term>
    | FilterByIngredient(term: string)  // filter.php?i=<term>
    | RandomPick                        // random.php
    | LookupById(id: string)            // lookup.php?i=<id>

  const SearchPrefix: string := BaseUrl + "search.php?s="
  const FilterPrefix: string := BaseUrl + "filter.php?i="
  const RandomUrl: string := BaseUrl + "random.php"
  const LookupPrefix: string := BaseUrl + "lookup.php?i="

  /** The URL the page fetches for a request. */
  function Url(r: Request): string {
    match r
    case SearchByName(term) => SearchPrefix + term
    case FilterByIngredient(term) => FilterPrefix + term
    case RandomPick => RandomUrl
    case LookupById(id) => LookupPrefix + id
  }

  predicate StartsWith(s: string, prefix: string) {
    |prefix| <= |s| && s[..|prefix|] == prefix
  }

  /** Reads a URL back as the request it stands for, if it stands for one. */
  function RequestOf(url: string): Option<Request> {
    if StartsWith(url, SearchPrefix) then Some(SearchByName(url[|SearchPrefix|..]))
    else if StartsWith(url, FilterPrefix) then Some(FilterByIngredient(url[|FilterPrefix|..]))
    else if url == RandomUrl then Some(RandomPick)
    else if StartsWith(url, LookupPrefix) then Some(LookupById(url[|LookupPrefix|..]))
    else None
  }

  /** The four endpoint names differ in their first letter, right after the base URL. */
  lemma EndpointLetters()
    ensures |SearchPrefix| > |BaseUrl| && SearchPrefix[|BaseUrl|] == 's'
    ensures |FilterPrefix| > |BaseUrl| && FilterPrefix[|BaseUrl|] == 'f'
    ensures |RandomUrl| > |BaseUrl| && RandomUrl[|BaseUrl|] == 'r'
    ensures |LookupPrefix| > |BaseUrl| && LookupPrefix[|BaseUrl|] == 'l'
  {
  }

  /** A string that differs from `prefix` at some position inside both does not start with it. */
  lemma DiffersAt(s: string, prefix: string, k: nat)
    requires k < |s| && k < |prefix| && s[k] != prefix[k]
    ensures !StartsWith(s, prefix)
  {
    if |prefix| <= |s| {
      assert s[..|prefix|][k] == s[k];
    }
  }

  /** Every URL the page builds reads back as the request it was built from. */
  lemma UrlRoundTrip(r: Request)
    ensures RequestOf(Url(r)) == Some(r)
  {
    var u := Url(r);
    var b := |BaseUrl|;
    EndpointLetters();
    match r
    case SearchByName(term) =>
      assert u[..|SearchPrefix|] == SearchPrefix;
    case FilterByIngredient(term) =>
      assert u[b] == 'f' && SearchPrefix[b] == 's';
      DiffersAt(u, SearchPrefix, b);
      assert u[..|FilterPrefix|] == FilterPrefix;
    case RandomPick =>
      assert u[b] == 'r';
      DiffersAt(u, SearchPrefix, b);
      DiffersAt(u, FilterPrefix, b);
    case LookupById(id) =>
      assert u[b] == 'l';
      DiffersAt(u, SearchPrefix, b);
      DiffersAt(u, FilterPrefix, b);
      assert u != RandomUrl by { assert |u| >= |LookupPrefix| && u[b] != RandomUrl[b]; }
      assert u[..|LookupPrefix|] == LookupPrefix;
  }

  /** Two requests have the same URL only if they are the same request: the log of URLs says which requests were made. */
  lemma UrlInjective(r1: Request, r2: Request)
    ensures Url(r1) == Url(r2) <==> r1 == r2
  {
    UrlRoundTrip(r1);
    UrlRoundTrip(r2);
  }

  /**
   * What one `fetch` gave the page. `Threw`: the promise rejected (network
   * failure), or reading the body as JSON failed. `Answered`: the body was
   * read; `ok` is `response.ok` (status 200..299) and `drinks` the body's
   * `drinks` field, `None` when it is `null` or missing.
   */
  datatype Response =
    | Threw
    | Answered(ok: bool, drinks: Option<seq<Cocktail>>)

  /** The request succeeded for a handler that checks `response.ok`. */
  predicate Succeeded(r: Response) {
    r.Answered? && r.ok
  }

  /** `drinks && drinks.length > 0` */
  predicate HasDrinks(drinks: Option<seq<Cocktail>>) {
    drinks.Some? && |drinks.value| > 0
  }
}
