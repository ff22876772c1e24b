/** The `resolvers` object of schema.js: the Query getters and list queries
    over the continent, country and language tables, and the field
    resolvers that join Country, Continent, Language and State. The tables
    and the province list are parameters, and so is `sift`, the library
    that turns a query object into a predicate on records. */
module Resolvers {
  import opened Wrappers
  import opened Js
  import opened SiftQuery
  import opened Entities

  /** `{...country, code}`: the stored record tagged with its key. */
  function TagCountry(code: string, country: Country): Country {
    country.(code := Some(code))
  }

  /** `{...language, code}`: the stored record tagged with its key. */
  function TagLanguage(code: string, language: Language): Language {
    language.(code := Some(code))
  }

  /** `{code, name}` for an entry of the continent table. */
  function NameContinent(code: string, name: string): Continent {
    Continent(code, Some(name))
  }

  // ---------------------------------------------------------------------
  // Query getters

  /** `Query.continent(code)`: `name && {code, name}`; an unknown code gives
      no continent. For an empty (falsy) name the source returns the empty
      string itself; the model returns no continent there too. */
  function ContinentByCode(continents: Obj<string>, code: string): (r: Option<Continent>)
    ensures r.Some? <==> code in continents.props && continents.props[code] != ""
    ensures r.Some? ==> r.value.code == code && r.value.name == Some(continents.props[code])
  {
    match Get(continents, code)
    case Some(name) => if name == "" then None else Some(NameContinent(code, name))
    case None => None
  }

  /** `Query.country(code)`: the stored country tagged with the looked-up
      code, or nothing for an unknown code. */
  function CountryByCode(countries: Obj<Country>, code: string): (r: Option<Country>)
    ensures r.Some? <==> code in countries.props
    ensures r.Some? ==> r.value.code == Some(code) && r.value.(code := None) == countries.props[code].(code := None)
  {
    match Get(countries, code)
    case Some(country) => Some(TagCountry(code, country))
    case None => None
  }

  /** `Query.language(code)`: the stored language tagged with the looked-up
      code, or nothing for an unknown code. */
  function LanguageByCode(languages: Obj<Language>, code: string): (r: Option<Language>)
    ensures r.Some? <==> code in languages.props
    ensures r.Some? ==> r.value.code == Some(code) && r.value.(code := None) == languages.props[code].(code := None)
  {
    match Get(languages, code)
    case Some(language) => Some(TagLanguage(code, language))
    case None => None
  }

  // ---------------------------------------------------------------------
  // List queries

  /** `sift(query)`: the predicate `sift` compiles the query into. */
  function Accepts<E>(sift: (Query, E) -> bool, query: Query): E -> bool {
    (e: E) => sift(query, e)
  }

  /** `Object.entries(table).map(project).filter(filterToSift(filter))`:
      the projected entries that `sift` accepts, in table order; a filter
      whose translation throws makes the query throw. */
  function ListQuery<V, E(==)>(table: Obj<V>, project: (string, V) -> E, filter: FilterArg, sift: (Query, E) -> bool): (r: Result<seq<E>>)
    requires table.Valid() && filter.Valid()
    ensures r.TypeError? <==> FilterToSift(filter).TypeError?
    ensures r.Ok? ==> Subsequence(r.value, MapEntries(table, project)) && |r.value| <= |table.keys|
    ensures r.Ok? ==> forall e :: e in r.value ==>
      sift(FilterToSift(filter).value, e) && exists k :: k in table.props && e == project(k, table.props[k])
    ensures r.Ok? ==> forall k :: k in table.props && sift(FilterToSift(filter).value, project(k, table.props[k])) ==>
      project(k, table.props[k]) in r.value
  {
    var projected := MapEntries(table, project);
    match FilterToSift(filter)
    case TypeError => TypeError
    case Ok(query) =>
      var kept := Filter(projected, Accepts(sift, query));
      SubsequenceLength(kept, projected);
      Ok(kept)
  }

  /** `Query.continents(filter)`. */
  function Continents(continents: Obj<string>, filter: FilterArg, sift: (Query, Continent) -> bool): (r: Result<seq<Continent>>)
    requires continents.Valid() && filter.Valid()
    ensures r.TypeError? <==> FilterToSift(filter).TypeError?
    ensures r.Ok? ==> Subsequence(r.value, MapEntries(continents, NameContinent))
    ensures r.Ok? ==> forall c :: c in r.value ==>
      sift(FilterToSift(filter).value, c) && c.code in continents.props && c.name == Some(continents.props[c.code])
    ensures r.Ok? ==> forall k :: k in continents.props && sift(FilterToSift(filter).value, NameContinent(k, continents.props[k])) ==>
      NameContinent(k, continents.props[k]) in r.value
  {
    ListQuery(continents, NameContinent, filter, sift)
  }

  /** `Query.countries(filter)`: every element is what `Query.country`
      returns for the code it carries. */
  function Countries(countries: Obj<Country>, filter: FilterArg, sift: (Query, Country) -> bool): (r: Result<seq<Country>>)
    requires countries.Valid() && filter.Valid()
    ensures r.TypeError? <==> FilterToSift(filter).TypeError?
    ensures r.Ok? ==> Subsequence(r.value, MapEntries(countries, TagCountry))
    ensures r.Ok? ==> forall c :: c in r.value ==>
      sift(FilterToSift(filter).value, c) && c.code.Some? && CountryByCode(countries, c.code.value) == Some(c)
    ensures r.Ok? ==> forall k :: k in countries.props && sift(FilterToSift(filter).value, TagCountry(k, countries.props[k])) ==>
      TagCountry(k, countries.props[k]) in r.value
  {
    ListQuery(countries, TagCountry, filter, sift)
  }

  /** `Query.languages(filter)`: every element is what `Query.language`
      returns for the code it carries. */
  function Languages(languages: Obj<Language>, filter: FilterArg, sift: (Query, Language) -> bool): (r: Result<seq<Language>>)
    requires languages.Valid() && filter.Valid()
    ensures r.TypeError? <==> FilterToSift(filter).TypeError?
    ensures r.Ok? ==> Subsequence(r.value, MapEntries(languages, TagLanguage))
    ensures r.Ok? ==> forall l :: l in r.value ==>
      sift(FilterToSift(filter).value, l) && l.code.Some? && LanguageByCode(languages, l.code.value) == Some(l)
    ensures r.Ok? ==> forall k :: k in languages.props && sift(FilterToSift(filter).value, TagLanguage(k, languages.props[k])) ==>
      TagLanguage(k, languages.props[k]) in r.value
  {
    ListQuery(languages, TagLanguage, filter, sift)
  }

  /** With no filter, and a `sift` whose empty query accepts every record,
      a list query returns every projected entry, in table order. */
  lemma UnfilteredListIsWholeTable<V, E>(table: Obj<V>, project: (string, V) -> E, sift: (Query, E) -> bool)
    requires table.Valid()
    requires forall e :: sift(map[], e)
    ensures ListQuery(table, project, Omitted, sift) == Ok(MapEntries(table, project))
  {
    var projected := MapEntries(table, project);
    AcceptsAll(projected, sift);
    FilterKeepsAll(projected, Accepts(sift, map[]));
    assert FilterToSift(Omitted) == Ok(map[]);
  }

  /** A `sift` whose empty query accepts every record keeps every element. */
  lemma AcceptsAll<E>(s: seq<E>, sift: (Query, E) -> bool)
    requires forall e :: sift(map[], e)
    ensures forall e :: e in s ==> Accepts(sift, map[])(e)
  {
  }

  /** The singular getter and the list query agree: a code's tagged record
      is listed exactly when `sift` accepts it. */
  lemma CountryGetterAgreesWithList(countries: Obj<Country>, filter: FilterArg, sift: (Query, Country) -> bool, code: string)
    requires countries.Valid() && filter.Valid()
    requires FilterToSift(filter).Ok? && code in countries.props
    ensures CountryByCode(countries, code).Some?
    ensures CountryByCode(countries, code).value in Countries(countries, filter, sift).value <==>
      sift(FilterToSift(filter).value, CountryByCode(countries, code).value)
  {
  }

  // ---------------------------------------------------------------------
  // Field resolvers

  /** `Country.capital`: `country.capital || null`. */
  function Capital(country: Country): (r: Option<string>)
    ensures r.Some? <==> country.capital.Some? && country.capital.value != ""
    ensures r.Some? ==> r == country.capital
  {
    if country.capital == Some("") then None else country.capital
  }

  /** `Country.currency`: `country.currency || null`. */
  function Currency(country: Country): (r: Option<string>)
    ensures r.Some? <==> country.currency.Some? && country.currency.value != ""
    ensures r.Some? ==> r == country.currency
  {
    if country.currency == Some("") then None else country.currency
  }

  /** `Language.rtl`: `Boolean(language.rtl)`. */
  function Rtl(language: Language): (r: bool)
    ensures r <==> language.rtl == Some(true)
  {
    match language.rtl
    case Some(b) => b
    case None => false
  }

  /** `Country.continent`: the country's continent code with the name the
      continent table holds for it, if any. */
  function CountryContinent(continents: Obj<string>, country: Country): (r: Continent)
    ensures r.code == country.continent
    ensures r.name.Some? <==> country.continent in continents.props
    ensures country.continent in continents.props ==> r.name == Some(continents.props[country.continent])
    ensures country.continent in continents.props && continents.props[country.continent] != "" ==>
      ContinentByCode(continents, country.continent) == Some(r)
  {
    Continent(country.continent, Get(continents, country.continent))
  }

  /** `{...languages[code], code}`: spreading `undefined` for an unknown
      code leaves a language with nothing but its code. */
  function LanguageOf(languages: Obj<Language>, code: string): Language {
    match Get(languages, code)
    case Some(language) => TagLanguage(code, language)
    case None => Language(Some(code), None, None, None)
  }

  /** `Country.languages`: one language per stored code, in the stored
      order, each what `Query.language` returns for that code when the
      language table knows it. */
  function CountryLanguages(languages: Obj<Language>, country: Country): (r: seq<Language>)
    ensures |r| == |country.languages|
    ensures forall i :: 0 <= i < |r| ==> r[i].code == Some(country.languages[i])
    ensures forall i :: 0 <= i < |r| && country.languages[i] in languages.props ==>
      LanguageByCode(languages, country.languages[i]) == Some(r[i])
    ensures forall i :: 0 <= i < |r| && country.languages[i] !in languages.props ==>
      r[i].name.None? && r[i].native.None? && !Rtl(r[i])
  {
    Map(country.languages, (code: string) => LanguageOf(languages, code))
  }

  /** `Country.states`: the provinces whose country code is the country's
      own `code`, in province-list order. */
  function CountryStates(provinces: seq<Province>, country: Country): (r: seq<Province>)
    ensures Subsequence(r, provinces)
    ensures forall p :: p in r ==> p in provinces && Some(p.country) == country.code
    ensures forall p :: p in provinces && Some(p.country) == country.code ==> p in r
    ensures forall p :: p in provinces ==>
      multiset(r)[p] == if Some(p.country) == country.code then multiset(provinces)[p] else 0
  {
    Filter(provinces, (p: Province) => Some(p.country) == country.code)
  }

  /** `State.code`: the province's `short` field, read as it is; a province
      without one has no code. */
  function StateCode(state: Province): (r: Option<string>)
    ensures r == state.short
  {
    state.short
  }

  /** `([code, country]) => ({...country, code})` on an entry. */
  function TagEntry(entry: (string, Country)): Country {
    TagCountry(entry.0, entry.1)
  }

  /** `entry => entry[1].continent === code`. */
  function EntryOnContinent(code: string): ((string, Country)) -> bool {
    (entry: (string, Country)) => entry.1.continent == code
  }

  /** The same test on a tagged country. */
  function OnContinent(code: string): Country -> bool {
    (c: Country) => c.continent == code
  }

  /** `Continent.countries`: the country entries whose stored continent is
      the continent's code, tagged with their keys, in table order. */
  function ContinentCountries(countries: Obj<Country>, continent: Continent): (r: seq<Country>)
    requires countries.Valid()
    ensures Subsequence(r, MapEntries(countries, TagCountry))
    ensures forall c :: c in r ==>
      c.continent == continent.code && c.code.Some? && CountryByCode(countries, c.code.value) == Some(c)
    ensures forall k :: k in countries.props && countries.props[k].continent == continent.code ==>
      TagCountry(k, countries.props[k]) in r
  {
    FilteredEntriesAreFilteredProjection(countries, continent.code);
    Map(Filter(Entries(countries), EntryOnContinent(continent.code)), TagEntry)
  }

  /** Filtering the entries and then tagging them, as `Continent.countries`
      does, gives the tagged projection filtered on the continent code. */
  lemma FilteredEntriesAreFilteredProjection(countries: Obj<Country>, code: string)
    requires countries.Valid()
    ensures Map(Filter(Entries(countries), EntryOnContinent(code)), TagEntry) ==
      Filter(MapEntries(countries, TagCountry), OnContinent(code))
  {
    FilterThenMap(Entries(countries), TagEntry, EntryOnContinent(code), OnContinent(code));
    TaggedEntriesAreProjection(countries);
  }

  /** Tagging every entry is the tagged projection of the table. */
  lemma TaggedEntriesAreProjection(countries: Obj<Country>)
    requires countries.Valid()
    ensures Map(Entries(countries), TagEntry) == MapEntries(countries, TagCountry)
  {
    var tagged, projected := Map(Entries(countries), TagEntry), MapEntries(countries, TagCountry);
    assert |tagged| == |projected|;
    assert forall i :: 0 <= i < |tagged| ==> tagged[i] == projected[i];
  }

  /** Which countries `Continent.countries` lists does not depend on the
      order of the country table, only on its contents. */
  lemma ContinentCountriesIgnoreOrder(countries: Obj<Country>, reordered: Obj<Country>, continent: Continent)
    requires countries.Valid() && reordered.Valid() && countries.props == reordered.props
    ensures forall c :: c in ContinentCountries(countries, continent) <==> c in ContinentCountries(reordered, continent)
  {
  }

  /** `State.country` as written: `countries[state.country]`, the stored
      record itself, not tagged with its code. */
  function StateCountry(countries: Obj<Country>, state: Province): (r: Option<Country>)
    ensures r.Some? <==> state.country in countries.props
    ensures r.Some? ==> r.value == countries.props[state.country]
  {
    Get(countries, state.country)
  }

  /** A stored country record carrying no code reaches `State.country`
      untagged: its `code` is missing and `Country.states` of it is empty,
      although the state belongs to that country and `Country.states` of
      the country `Query.country` returns lists it. */
  lemma StateCountryLosesItsStates(countries: Obj<Country>, provinces: seq<Province>, state: Province)
    requires state in provinces && state.country in countries.props
    requires countries.props[state.country].code.None?
    ensures StateCountry(countries, state).value.code.None?
    ensures CountryStates(provinces, StateCountry(countries, state).value) == []
    ensures state in CountryStates(provinces, CountryByCode(countries, state.country).value)
  {
  }

  /** `State.country` tagging the stored record with its code, as the other
      resolvers do: the country `Query.country` returns for that code. */
  function StateCountryTagged(countries: Obj<Country>, state: Province): (r: Option<Country>)
    ensures r.Some? <==> state.country in countries.props
    ensures r.Some? ==> r.value.code == Some(state.country) && CountryByCode(countries, state.country) == r
  {
    match Get(countries, state.country)
    case Some(country) => Some(TagCountry(state.country, country))
    case None => None
  }

  /** Going from a state to its country and back to the country's states
      finds the state again. */
  lemma StateCountryRoundTrip(countries: Obj<Country>, provinces: seq<Province>, state: Province)
    requires state in provinces && state.country in countries.props
    ensures state in CountryStates(provinces, StateCountryTagged(countries, state).value)
  {
  }
}
