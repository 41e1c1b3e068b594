/** What the country card and the country detail page have in common: the
    link to a country's page, the capital line, and the favorite button with
    its toggle. */
module CountryDisplay {
  import opened Common
  import opened Favorites
  import opened Countries
  import opened CountryContext

  const CountryRoute: string := "/country/"

  /** The path `/country/{code}` of a country's detail page. */
  function CountryPath(code: string): (p: string)
    ensures |p| == |CountryRoute| + |code|
    ensures CountryRoute <= p && p[|CountryRoute|..] == code
  {
    CountryRoute + code
  }

  /** The model's reading of the `:code` parameter out of a path, if the path
      is a country page: everything after `/country/`, non-empty and without
      a further `/`. */
  function CodeFromPath(path: string): (r: Option<string>)
    ensures r.Some? ==> r.value != [] && '/' !in r.value
  {
    if CountryRoute <= path && |path| > |CountryRoute| && '/' !in path[|CountryRoute|..]
    then Some(path[|CountryRoute|..])
    else None
  }

  /** Reading a link's code gives back the code the link was made for, and
      every path the model reads a code from is that code's link. */
  lemma CountryPathRoundTrip(code: string, path: string)
    ensures code != [] && '/' !in code ==> CodeFromPath(CountryPath(code)) == Some(code)
    ensures CodeFromPath(path) == Some(code) ==> path == CountryPath(code)
  {
    if CodeFromPath(path) == Some(code) {
      assert path == path[..|CountryRoute|] + path[|CountryRoute|..];
    }
  }

  /** `capital && capital.length > 0 ? capital.join(', ') : 'N/A'`. */
  function CapitalText(capital: Option<seq<string>>): (r: string)
    ensures capital.None? || capital.value == [] ==> r == "N/A"
    ensures capital.Some? && capital.value != [] ==>
      && r == Join(capital.value, ", ")
      && (forall k | 0 <= k < |capital.value| :: IsInfix(capital.value[k], r))
      && (|capital.value| == 1 ==> r == capital.value[0])
  {
    if capital.Some? && |capital.value| > 0 then
      JoinContainsParts(capital.value, ", ");
      Join(capital.value, ", ")
    else "N/A"
  }

  /** The call the heart button makes. */
  datatype FavoriteAction = CallRemove(countryCode: string) | CallAdd(country: Country)

  /** `isFavorite(cca3) ? removeFavorite(cca3) : addFavorite(country)`. */
  function ToggleAction(favorites: seq<Favorite>, country: Country): (a: FavoriteAction)
    ensures a.CallRemove? <==> HasCode(favorites, country.cca3)
    ensures a.CallAdd? <==> !HasCode(favorites, country.cca3)
    ensures a.CallRemove? ==> a.countryCode == country.cca3
    ensures a.CallAdd? ==> a.country == country
  {
    if HasCode(favorites, country.cca3) then CallRemove(country.cca3) else CallAdd(country)
  }

  /** The list the server stores after the call, when it succeeds: the new
      list that `Store.AddFavoriteCountry` and `Store.RemoveFavoriteCountry`
      promise, for the favorite the context posts. */
  function ServerFavorites(favorites: seq<Favorite>, action: FavoriteAction): (r: seq<Favorite>)
    ensures action.CallRemove? ==> !HasCode(r, action.countryCode)
    ensures action.CallAdd? ==> HasCode(r, action.country.cca3)
  {
    match action
    case CallRemove(code) => WithoutCode(favorites, code)
    case CallAdd(country) => WithFavorite(favorites, ToFavorite(country))
  }

  /** After a successful toggle the country is a favorite exactly when it was
      not one before, and the list still has no repeated code. */
  lemma ToggleFlipsFavorite(favorites: seq<Favorite>, country: Country)
    requires NoDuplicateCodes(favorites)
    ensures var after := ServerFavorites(favorites, ToggleAction(favorites, country));
      && (HasCode(after, country.cca3) <==> !HasCode(favorites, country.cca3))
      && NoDuplicateCodes(after)
  {
    if HasCode(favorites, country.cca3) {
      WithoutCodeKeepsNoDuplicates(favorites, country.cca3);
    }
  }

  /** Starting from a country that is not a favorite, two successful toggles
      give back the original list. */
  lemma ToggleTwiceRestores(favorites: seq<Favorite>, country: Country)
    requires !HasCode(favorites, country.cca3)
    ensures var once := ServerFavorites(favorites, ToggleAction(favorites, country));
            ServerFavorites(once, ToggleAction(once, country)) == favorites
  {
  }

  /** The heart button: filled when the country is a favorite. */
  datatype FavoriteButton = FavoriteButton(filled: bool, onClick: FavoriteAction)

  /** `{isAuthenticated && <button …/>}`. */
  function FavoriteButtonFor(isAuthenticated: bool, favorites: seq<Favorite>, country: Country)
    : (b: Option<FavoriteButton>)
    ensures b.Some? <==> isAuthenticated
    ensures b.Some? ==> (b.value.filled <==> HasCode(favorites, country.cca3))
    ensures b.Some? ==> b.value.onClick == ToggleAction(favorites, country)
  {
    if isAuthenticated
    then Some(FavoriteButton(HasCode(favorites, country.cca3), ToggleAction(favorites, country)))
    else None
  }
}
