/** The client's country state: the full list, the filtered list, the mirror
    of the user's favorites, and the search and region filters. What each
    request to a server produced is an argument of the method that awaits it;
    the debounce timer that delays filtering is not modelled. */
module CountryContext {
  import opened Common
  import opened Favorites
  import opened Countries

  /** The body `addFavorite` posts for a country. */
  function ToFavorite(country: Country): (f: Favorite)
    ensures f.countryCode == country.cca3
    ensures f.countryName == country.name.common
    ensures f.flagUrl == country.flags.svg
  {
    Favorite(country.cca3, country.name.common, country.flags.svg)
  }

  /** `countries.map(c => c.cca3)`. */
  function Codes(countries: seq<Country>): (codes: seq<string>)
    ensures |codes| == |countries|
    ensures forall i | 0 <= i < |countries| :: codes[i] == countries[i].cca3
  {
    seq(|countries|, i requires 0 <= i < |countries| => countries[i].cca3)
  }

  /** `countries.filter(c => codes.includes(c.cca3))`: the countries whose code
      is listed, in their own order. */
  function RestrictToCodes(countries: seq<Country>, codes: seq<string>): (r: seq<Country>)
    ensures IsSubsequence(r, countries)
    ensures forall c :: c in r <==> c in countries && c.cca3 in codes
    ensures forall c :: multiset(r)[c] == if c.cca3 in codes then multiset(countries)[c] else 0
  {
    FilterIsSubsequence(countries, (c: Country) => c.cca3 in codes);
    forall c ensures multiset(Filter(countries, (c: Country) => c.cca3 in codes))[c]
                     == if c.cca3 in codes then multiset(countries)[c] else 0 {
      FilterCounts(countries, (c: Country) => c.cca3 in codes, c);
    }
    Filter(countries, (c: Country) => c.cca3 in codes)
  }

  /** Restricting a list to the codes of a search result keeps exactly the
      countries a search result has a country with the same code for. */
  lemma RestrictToSearch(countries: seq<Country>, found: seq<Country>, c: Country)
    ensures c in RestrictToCodes(countries, Codes(found)) <==>
            c in countries && exists i | 0 <= i < |found| :: found[i].cca3 == c.cca3
  {
    var codes := Codes(found);
    if c.cca3 in codes {
      var i :| 0 <= i < |codes| && codes[i] == c.cca3;
      assert found[i].cca3 == c.cca3;
    }
    if exists i | 0 <= i < |found| :: found[i].cca3 == c.cca3 {
      var i :| 0 <= i < |found| && found[i].cca3 == c.cca3;
      assert codes[i] == c.cca3;
    }
  }

  class CountryState {
    var countries: seq<Country>
    var filteredCountries: seq<Country>
    var favorites: seq<Favorite>
    var loading: bool
    var error: Option<string>
    var searchTerm: string
    var regionFilter: string

    constructor ()
      ensures countries == [] && filteredCountries == [] && favorites == []
      ensures !loading && error == None && searchTerm == "" && regionFilter == ""
    {
      countries, filteredCountries, favorites := [], [], [];
      loading, error := false, None;
      searchTerm, regionFilter := "", "";
    }

    /** `isFavorite(code)`: some favorite carries the code, which is exactly
        when removing that code would shorten the list. */
    predicate IsFavorite(code: string)
      reads this
      ensures IsFavorite(code) <==> exists f | f in favorites :: f.countryCode == code
      ensures IsFavorite(code) <==> |WithoutCode(favorites, code)| < |favorites|
    {
      WithoutCodeShrinks(favorites, code);
      HasCode(favorites, code)
    }

    /** The first load of all countries. */
    method FetchCountries(reply: Reply<seq<Country>>)
      modifies this`countries, this`filteredCountries, this`loading, this`error
      ensures !loading
      ensures reply.Ok? ==> countries == reply.value && filteredCountries == reply.value && error == None
      ensures reply.Failed? ==>
        && countries == old(countries) && filteredCountries == old(filteredCountries)
        && error == Some("Failed to fetch countries")
    {
      loading := true;
      error := None;
      match reply {
        case Ok(data) =>
          countries := data;
          filteredCountries := data;
        case Failed(_) =>
          error := Some("Failed to fetch countries");
      }
      loading := false;
    }

    /** The effect run whenever the signed-in state changes: signed out
        empties the mirror; signed in loads it, keeping it if the load fails. */
    method SyncFavorites(isAuthenticated: bool, reply: Reply<seq<Favorite>>)
      modifies this`favorites
      ensures !isAuthenticated ==> favorites == []
      ensures isAuthenticated && reply.Ok? ==> favorites == reply.value
      ensures isAuthenticated && reply.Failed? ==> favorites == old(favorites)
    {
      if !isAuthenticated {
        favorites := [];
        return;
      }
      if reply.Ok? {
        favorites := reply.value;
      }
    }

    method HandleSearch(term: string)
      modifies this`searchTerm
      ensures searchTerm == term
    {
      searchTerm := term;
    }

    method HandleRegionFilter(region: string)
      modifies this`regionFilter
      ensures regionFilter == region
    {
      regionFilter := region;
    }

    /** The filter effect. `regionReply` is what the region lookup gives and
        `searchReply` what the name search gives; each is only consulted when
        its filter is set. */
    method ApplyFilters(regionReply: Reply<seq<Country>>, searchReply: Reply<seq<Country>>)
      modifies this`filteredCountries, this`loading
      ensures countries == [] ==> filteredCountries == old(filteredCountries) && loading == old(loading)
      ensures countries != [] ==> !loading
      ensures countries != [] ==>
        var base := if regionFilter != "" && regionReply.Ok? then regionReply.value else countries;
        && (searchTerm == "" ==> filteredCountries == base)
        && (searchTerm != "" && searchReply.Failed? ==> filteredCountries == [])
        && (searchTerm != "" && searchReply.Ok? && regionFilter == "" ==>
              filteredCountries == searchReply.value)
        && (searchTerm != "" && searchReply.Ok? && regionFilter != "" ==>
              filteredCountries == RestrictToCodes(base, Codes(searchReply.value)))
    {
      if countries == [] {
        return;
      }
      loading := true;
      var result := countries;
      if regionFilter != "" {
        match regionReply {
          case Ok(regionData) => result := regionData;
          case Failed(_) =>
        }
      }
      if searchTerm != "" {
        match searchReply {
          case Ok(searchData) =>
            if regionFilter != "" {
              var searchCodes := Codes(searchData);
              result := RestrictToCodes(result, searchCodes);
            } else {
              result := searchData;
            }
          case Failed(_) =>
            result := [];
        }
      }
      filteredCountries := result;
      loading := false;
    }

    /** `addFavorite(country)`: returns the body it posts, if it posts one. */
    method AddFavorite(isAuthenticated: bool, country: Country, reply: Reply<seq<Favorite>>)
      returns (sent: Option<Favorite>)
      modifies this`favorites
      ensures !isAuthenticated ==> sent == None && favorites == old(favorites)
      ensures isAuthenticated ==> sent == Some(ToFavorite(country))
      ensures isAuthenticated && reply.Ok? ==> favorites == reply.value
      ensures reply.Failed? ==> favorites == old(favorites)
    {
      if !isAuthenticated {
        return None;
      }
      sent := Some(ToFavorite(country));
      if reply.Ok? {
        favorites := reply.value;
      }
    }

    /** `removeFavorite(code)`: returns the code it deletes, if it sends a request. */
    method RemoveFavorite(isAuthenticated: bool, countryCode: string, reply: Reply<seq<Favorite>>)
      returns (sent: Option<string>)
      modifies this`favorites
      ensures !isAuthenticated ==> sent == None && favorites == old(favorites)
      ensures isAuthenticated ==> sent == Some(countryCode)
      ensures isAuthenticated && reply.Ok? ==> favorites == reply.value
      ensures reply.Failed? ==> favorites == old(favorites)
    {
      if !isAuthenticated {
        return None;
      }
      sent := Some(countryCode);
      if reply.Ok? {
        favorites := reply.value;
      }
    }
  }
}
