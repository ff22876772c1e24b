/** The `Mutation` resolvers of schema.js: `editCountryProperties`, which
    overwrites an entry of the module-level country table in place. */
module Mutation {
  import opened Wrappers
  import opened Js
  import opened Entities
  import Resolvers

  /** `{...country, comment, url}`: the two fields replaced (an absent
      argument clears the field), every other field kept. */
  function WithProperties(country: Country, comment: Option<string>, url: Option<string>): (r: Country)
    ensures r.comment == comment && r.url == url
    ensures r.(comment := country.comment, url := country.url) == country
  {
    country.(comment := comment, url := url)
  }

  /** The country table after `editCountryProperties(code, comment, url)`:
      an unknown code leaves it as it is; otherwise only the entry under
      `code` changes, and the key order stays. */
  function EditedTable(countries: Obj<Country>, code: string, comment: Option<string>, url: Option<string>): (t: Obj<Country>)
    requires countries.Valid()
    ensures t.Valid() && t.keys == countries.keys && t.props.Keys == countries.props.Keys
    ensures forall k :: k in countries.props && k != code ==> t.props[k] == countries.props[k]
    ensures code in countries.props ==> t.props[code] == WithProperties(countries.props[code], comment, url)
    ensures code !in countries.props ==> t == countries
  {
    if code in countries.props then
      Obj(countries.keys, countries.props[code := WithProperties(countries.props[code], comment, url)])
    else countries
  }

  /** The module-level country table that the queries read and the mutation
      overwrites. */
  class CountryStore {
    var countries: Obj<Country>

    ghost predicate Valid()
      reads this
    {
      countries.Valid()
    }

    constructor (dataset: Obj<Country>)
      requires dataset.Valid()
      ensures Valid() && countries == dataset
    {
      countries := dataset;
    }

    /** `Mutation.editCountryProperties`: absent, and nothing changed, for a
        code that is not an own key of the table; otherwise the stored record
        gets the new `comment` and `url`, is returned, and is what
        `Query.country` shows from then on. */
    method EditCountryProperties(code: string, comment: Option<string>, url: Option<string>) returns (r: Option<Country>)
      requires Valid()
      modifies this
      ensures Valid()
      ensures countries == EditedTable(old(countries), code, comment, url)
      ensures r.None? <==> code !in old(countries).props
      ensures r.Some? ==> r.value == WithProperties(old(countries).props[code], comment, url)
      ensures r.Some? ==> Resolvers.CountryByCode(countries, code) == Some(Resolvers.TagCountry(code, r.value))
    {
      if code !in countries.props {
        return None;
      }
      var country := countries.props[code];
      var updated := WithProperties(country, comment, url);
      countries := Obj(countries.keys, countries.props[code := updated]);
      r := Some(updated);
    }
  }

  /** After an edit, `Query.country` shows the edited record for the edited
      code and the old answer for every other code. */
  lemma EditThenQuery(countries: Obj<Country>, code: string, comment: Option<string>, url: Option<string>, other: string)
    requires countries.Valid()
    ensures Resolvers.CountryByCode(EditedTable(countries, code, comment, url), other) ==
      if other == code && code in countries.props
      then Some(Resolvers.TagCountry(code, WithProperties(countries.props[code], comment, url)))
      else Resolvers.CountryByCode(countries, other)
  {
  }

  /** Editing twice with the same arguments is the same as editing once. */
  lemma EditIsIdempotent(countries: Obj<Country>, code: string, comment: Option<string>, url: Option<string>)
    requires countries.Valid()
    ensures EditedTable(EditedTable(countries, code, comment, url), code, comment, url) == EditedTable(countries, code, comment, url)
  {
  }

  /** The edit keeps the order of `Query.countries`: the projected table
      differs from the old one only at the edited code's position. */
  lemma EditKeepsListOrder(countries: Obj<Country>, code: string, comment: Option<string>, url: Option<string>)
    requires countries.Valid()
    ensures |MapEntries(EditedTable(countries, code, comment, url), Resolvers.TagCountry)| == |MapEntries(countries, Resolvers.TagCountry)|
    ensures forall i :: 0 <= i < |countries.keys| && countries.keys[i] != code ==>
      MapEntries(EditedTable(countries, code, comment, url), Resolvers.TagCountry)[i] == MapEntries(countries, Resolvers.TagCountry)[i]
  {
  }

  /** As written, `editCountryProperties` returns the stored record it wrote,
      not tagged with its code: for a stored record carrying no code, the
      result has no `code` and `Country.states` of it is empty, although the
      country `Query.country` returns after the edit lists its provinces. */
  lemma EditResultLosesItsCode(countries: Obj<Country>, provinces: seq<Province>, code: string, comment: Option<string>, url: Option<string>, state: Province)
    requires countries.Valid() && code in countries.props && countries.props[code].code.None?
    requires state in provinces && state.country == code
    ensures WithProperties(countries.props[code], comment, url).code.None?
    ensures Resolvers.CountryStates(provinces, WithProperties(countries.props[code], comment, url)) == []
    ensures state in Resolvers.CountryStates(provinces, Resolvers.CountryByCode(EditedTable(countries, code, comment, url), code).value)
  {
  }

  /** `editCountryProperties` returning `{...updatedCountry, code}`: the
      country `Query.country` shows for the code once the edit is made. */
  function EditResultTagged(countries: Obj<Country>, code: string, comment: Option<string>, url: Option<string>): (r: Option<Country>)
    requires countries.Valid()
    ensures r.Some? <==> code in countries.props
    ensures r.Some? ==> r.value.code == Some(code) && r.value.comment == comment && r.value.url == url
    ensures r == Resolvers.CountryByCode(EditedTable(countries, code, comment, url), code)
  {
    if code in countries.props then Some(Resolvers.TagCountry(code, WithProperties(countries.props[code], comment, url)))
    else None
  }

  /** With the tagged result, `Country.states` of the edited country lists
      every province of that country. */
  lemma EditResultTaggedKeepsItsStates(countries: Obj<Country>, provinces: seq<Province>, code: string, comment: Option<string>, url: Option<string>, state: Province)
    requires countries.Valid() && code in countries.props
    requires state in provinces && state.country == code
    ensures state in Resolvers.CountryStates(provinces, EditResultTagged(countries, code, comment, url).value)
  {
  }
}
