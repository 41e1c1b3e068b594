/** The country records the client receives from the public country-data
    service. A JSON object whose values the code reads with `Object.values`
    is kept as the sequence of those values, in key order. */
module Countries {
  import opened Common

  datatype NativeName = NativeName(official: string, common: string)

  datatype CountryName = CountryName(common: string, nativeName: Option<seq<NativeName>>)

  datatype Flags = Flags(svg: string, png: string)

  datatype Currency = Currency(name: string, symbol: string)

  datatype Country = Country(
    cca3: string,
    name: CountryName,
    flags: Flags,
    capital: Option<seq<string>>,
    region: string,
    subregion: Option<string>,
    tld: Option<seq<string>>,
    languages: Option<seq<string>>,
    currencies: Option<seq<Currency>>,
    borders: Option<seq<string>>,
    population: nat)
}
