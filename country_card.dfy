/** A country's card in the list: a link to its page with the flag, name,
    region, capital and, for a signed-in user, the heart button. */
module CountryCard {
  import opened Common
  import opened Countries
  import opened AuthContext
  import opened CountryContext
  import opened CountryDisplay

  datatype CardView = CardView(
    link: string,
    flagUrl: string,
    name: string,
    region: string,
    capital: string,
    button: Option<FavoriteButton>)

  /** The card as rendered with the session and the country state it reads. */
  function RenderCard(country: Country, session: AuthSession, state: CountryState): (v: CardView)
    reads session, state
    ensures v.link == CountryPath(country.cca3)
    ensures v.flagUrl == country.flags.svg && v.name == country.name.common && v.region == country.region
    ensures v.capital == CapitalText(country.capital)
    ensures v.button.Some? <==> session.IsAuthenticated()
    ensures v.button.Some? ==>
      (v.button.value.filled <==> state.IsFavorite(country.cca3)) &&
      (v.button.value.onClick.CallRemove? <==> state.IsFavorite(country.cca3)) &&
      (v.button.value.onClick.CallRemove? ==> v.button.value.onClick.countryCode == country.cca3) &&
      (v.button.value.onClick.CallAdd? ==> v.button.value.onClick.country == country)
  {
    CardView(CountryPath(country.cca3), country.flags.svg, country.name.common, country.region,
             CapitalText(country.capital),
             FavoriteButtonFor(session.IsAuthenticated(), state.favorites, country))
  }
}
