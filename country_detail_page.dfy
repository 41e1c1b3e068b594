/** The page of one country. The country is fetched by code when the page
    opens; that request is not modelled, and its outcome (still loading, an
    error message, or the country if one was found) is the page's input. */
module CountryDetailPage {
  import opened Common
  import opened Countries
  import opened AuthContext
  import opened CountryContext
  import opened CountryDisplay

  /** The language names joined by `', '`, or `'N/A'` when there are none. */
  function LanguagesText(languages: Option<seq<string>>): (r: string)
    ensures languages.None? ==> r == "N/A"
    ensures languages.Some? ==>
      && r == Join(languages.value, ", ")
      && (forall k | 0 <= k < |languages.value| :: IsInfix(languages.value[k], r))
      && (|languages.value| == 1 ==> r == languages.value[0])
      && (languages.value == [] ==> r == "")
  {
    match languages
    case None => "N/A"
    case Some(names) =>
      JoinContainsParts(names, ", ");
      Join(names, ", ")
  }

  function CurrencyNames(currencies: seq<Currency>): (names: seq<string>)
    ensures |names| == |currencies|
    ensures forall k | 0 <= k < |currencies| :: names[k] == currencies[k].name
  {
    seq(|currencies|, k requires 0 <= k < |currencies| => currencies[k].name)
  }

  /** The currency names (not their symbols) joined by `', '`, or `'N/A'`. */
  function CurrenciesText(currencies: Option<seq<Currency>>): (r: string)
    ensures currencies.None? ==> r == "N/A"
    ensures currencies.Some? ==>
      && r == Join(CurrencyNames(currencies.value), ", ")
      && (forall k | 0 <= k < |currencies.value| :: IsInfix(currencies.value[k].name, r))
      && (|currencies.value| == 1 ==> r == currencies.value[0].name)
      && (currencies.value == [] ==> r == "")
  {
    match currencies
    case None => "N/A"
    case Some(cs) =>
      var names := CurrencyNames(cs);
      JoinContainsParts(names, ", ");
      Join(names, ", ")
  }

  /** The first native name's common form, or the country's common name when
      it has no native names. An empty native-name object makes the page
      throw while rendering; that case is `None`. */
  function NativeNameText(name: CountryName): (r: Option<string>)
    ensures name.nativeName.None? ==> r == Some(name.common)
    ensures name.nativeName.Some? && name.nativeName.value != [] ==>
      r == Some(name.nativeName.value[0].common)
    ensures r.None? <==> name.nativeName == Some([])
  {
    match name.nativeName
    case None => Some(name.common)
    case Some(names) => if names == [] then None else Some(names[0].common)
  }

  /** `subregion || 'N/A'`: an empty subregion also shows `'N/A'`. */
  function SubregionText(subregion: Option<string>): (r: string)
    ensures subregion.Some? && subregion.value != "" ==> r == subregion.value
    ensures subregion.None? || subregion.value == "" ==> r == "N/A"
  {
    OrElse(subregion, "N/A")
  }

  /** `tld ? tld.join(', ') : 'N/A'`: unlike the capital, an empty list
      shows as empty text. */
  function TldText(tld: Option<seq<string>>): (r: string)
    ensures tld.None? ==> r == "N/A"
    ensures tld.Some? ==>
      && r == Join(tld.value, ", ")
      && (forall k | 0 <= k < |tld.value| :: IsInfix(tld.value[k], r))
      && (tld.value == [] ==> r == "")
  {
    match tld
    case None => "N/A"
    case Some(domains) =>
      JoinContainsParts(domains, ", ");
      Join(domains, ", ")
  }

  /** The links to the bordering countries, in the listed order. */
  function BorderLinks(borders: Option<seq<string>>): (links: seq<string>)
    ensures borders.None? ==> links == []
    ensures borders.Some? ==> |links| == |borders.value|
    ensures borders.Some? ==>
      forall k | 0 <= k < |links| :: links[k] == CountryPath(borders.value[k])
  {
    match borders
    case None => []
    case Some(codes) => seq(|codes|, k requires 0 <= k < |codes| => CountryPath(codes[k]))
  }

  datatype DetailView =
    | Spinner
    | ErrorBox(text: string)
    | Detail(
        flagUrl: string,
        name: string,
        nativeName: Option<string>,
        region: string,
        subregion: string,
        capital: string,
        topLevelDomain: string,
        currencies: string,
        languages: string,
        button: Option<FavoriteButton>,
        borderLinks: seq<string>)

  /** The page: a spinner while loading; the error, or `'Country not found'`,
      when there is an error or no country; otherwise the details. */
  function RenderDetail(loading: bool, error: Option<string>, country: Option<Country>,
                        session: AuthSession, state: CountryState): (v: DetailView)
    reads session, state
    ensures loading ==> v == Spinner
    ensures !loading && error.Some? && error.value != "" ==> v == ErrorBox(error.value)
    ensures !loading && (error.None? || error.value == "") && country.None? ==>
      v == ErrorBox("Country not found")
    ensures v.Detail? <==> !loading && (error.None? || error.value == "") && country.Some?
    ensures v.Detail? ==>
      var c := country.value;
      && v.name == c.name.common && v.flagUrl == c.flags.svg && v.region == c.region
      && v.nativeName == NativeNameText(c.name)
      && v.subregion == SubregionText(c.subregion)
      && v.capital == CapitalText(c.capital)
      && v.topLevelDomain == TldText(c.tld)
      && v.currencies == CurrenciesText(c.currencies)
      && v.languages == LanguagesText(c.languages)
      && v.borderLinks == BorderLinks(c.borders)
      && (v.button.Some? <==> session.IsAuthenticated())
      && (v.button.Some? ==>
            (v.button.value.filled <==> state.IsFavorite(c.cca3)) &&
            (v.button.value.onClick.CallRemove? <==> state.IsFavorite(c.cca3)) &&
            (v.button.value.onClick.CallRemove? ==> v.button.value.onClick.countryCode == c.cca3) &&
            (v.button.value.onClick.CallAdd? ==> v.button.value.onClick.country == c))
  {
    if loading then Spinner
    else if (error.Some? && error.value != "") || country.None? then ErrorBox(OrElse(error, "Country not found"))
    else
      var c := country.value;
      Detail(c.flags.svg, c.name.common, NativeNameText(c.name), c.region,
             SubregionText(c.subregion), CapitalText(c.capital), TldText(c.tld),
             CurrenciesText(c.currencies), LanguagesText(c.languages),
             FavoriteButtonFor(session.IsAuthenticated(), state.favorites, c), BorderLinks(c.borders))
  }
}
