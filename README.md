# Countries GraphQL resolvers, modelled in Dafny

This project models the resolver layer of a GraphQL service over a static
country reference dataset (schema.js). The layer has three parts:

- **Filter translation.** `filterToSift` and `operatorsToSift` turn a filter
  argument such as `{code: {eq: "FR", in: [...]}}` into the query object
  `{code: {$eq: "FR", $in: [...]}}` that the `sift` library compiles into a
  predicate.
- **Entity resolvers.** These are lookups and joins over three keyed tables
  (continents, countries, languages) and a province list:
  - the Query getters `continent`, `country` and `language`;
  - the list queries `continents`, `countries` and `languages`;
  - the field resolvers `Country.capital`, `Country.currency`,
    `Country.continent`, `Country.languages`, `Country.states`,
    `State.code`, `State.country`, `Continent.countries` and `Language.rtl`.
- **`editCountryProperties`**, the one mutation. It overwrites an entry of
  the country table in place.

Files and modules:

- `wrappers.dfy` (`Wrappers`): `Option`, for a value that may be `undefined`
  or `null`, and `Result`, for an expression that may throw `TypeError`.
- `js.dfy` (`Js`): the JavaScript built-ins the resolvers use.
  - A plain object is `Obj`: its own keys in the order `Object.entries`
    lists them plus a map from
    key to value. `Obj.Valid` says the keys are distinct and match the map.
  - `Entries` models `Object.entries`. `Map` and `Filter` model
    `Array.prototype.map` and `Array.prototype.filter`.
  - `Subsequence` is an independent definition of "kept in order".
- `entities.dfy` (`Entities`): the dataset records and schema entities.
  A stored country or language record has no `code` field of its own
  (`code` is `None`). A resolver that spreads the record and adds the key
  sets `code`.
- `sift.dfy` (`SiftQuery`): the filter translation.
- `resolvers.dfy` (`Resolvers`): the getters, list queries and field
  resolvers.
- `mutation.dfy` (`Mutation`): `CountryStore`, a class whose `countries`
  field is the mutable country table, and its method
  `EditCountryProperties`.

Modelling choices:

- The tables and the province list are parameters.
- `sift` is a parameter `sift: (Query, E) -> bool`. The model proves only
  what `Array.prototype.filter` guarantees about the records it accepts.
- `State.code` is the function `Resolvers.StateCode`, which returns the
  province's `short` field.
- A `null` filter, or a filter field given as `null`, makes
  `Object.entries(null)` throw while the filter is translated. The model
  returns `TypeError` for both. This is the only exception modelled.
- For a language code the table lacks, `Country.languages` spreads
  `undefined`. The result is a language with only its code.
- `Query.continent` returns `name && {code, name}`. The model returns no
  continent for an empty stored name, where the source returns the empty
  string itself (see "## Left out").

Behaviour of schema.js worth knowing before reading the contracts:

- `operatorsToSift` does not reject unknown operators: it passes any name
  through with a `$` prefix (schema.js:100).
- Continents are not derived from the country records: `Country.continent`
  and the continent queries read the continent table (schema.js:112-115,
  144-159).
- `editCountryProperties` returns the stored record it wrote, which has no
  `code` field, not the country `Query.country` returns (schema.js:203-207).

## Model

| member | source | states |
|---|---|---|
| SiftQuery.DollarInjective | schema.js:100 | Two different operator names never get the same `$`-prefixed name, so the reduce never overwrites one operator with another. |
| SiftQuery.PrefixOperators | schema.js:97-103 | After the reduce over the operator entries, each operator `op` seen so far has the key `"$" + op`, and that key holds the operator's operand unchanged. |
| SiftQuery.PrefixOperatorsKeys | schema.js:97-103 | Every key the reduce produces is the `$`-prefixed name of one of the operator entries. |
| SiftQuery.OperatorsToSift | schema.js:96-104 | Each operator `op` of the input object appears as key `"$" + op`, with its value unchanged. |
| SiftQuery.OperatorsToSiftKeys | schema.js:96-104 | The translated operator object has no key other than the `$`-prefixed operator names. |
| SiftQuery.FieldsToSift | schema.js:86-92 | The reduce over the field entries throws exactly when some field's operator object is `null`. Otherwise every field seen so far is a key of the query, holding that field's translated operators. |
| SiftQuery.FieldsToSiftKeys | schema.js:86-92 | The reduce adds no key other than the names of the fields it has seen. |
| SiftQuery.FieldsQueryThrows | schema.js:84-94 | For a given filter object, the reduce that builds the query throws exactly when one of the filter's fields is `null`. |
| SiftQuery.FieldsQueryValues | schema.js:84-94 | When no field is `null`, the translation completes, and the query's keys are exactly the filter's field names, and each key holds `operatorsToSift` of that field's operators. |
| SiftQuery.FieldsQueryHasFields | schema.js:84-94 | When no field is `null`, the translation completes, and each field of the filter is a key of the query holding its translated operators. |
| SiftQuery.FieldsQueryOnlyFields | schema.js:84-94 | The completed query has no key that is not a field of the filter. |
| SiftQuery.FilterToSift | schema.js:84-94 | An omitted or empty filter gives the empty query. A `null` filter, or a `null` field, throws. Otherwise the query has exactly the filter's field names as keys, each mapped to `operatorsToSift` of its operators. |
| Js.Filter | schema.js:125 | `Array.prototype.filter` keeps the elements that satisfy the predicate, in their original order (`Subsequence`). An element is in the result exactly when it is in the input and satisfies the predicate, and it occurs there as many times as in the input. |
| Js.MapEntries | schema.js:154-158 | `Object.entries(o).map(f)` has one element per key, in key order. An element is in the result exactly when it is `f(k, o[k])` for some own key `k`. |
| Js.SubsequenceLength | schema.js:153-159 | A filtered list is never longer than the list it was filtered from. |
| Js.FilterKeepsAll | schema.js:153-159 | Filtering with a predicate that every element satisfies returns the list unchanged. |
| Js.FilterThenMap | schema.js:133-138 | Filtering the entries and then mapping them gives the same result as mapping and then filtering, when the two predicates agree through the mapping. |
| Js.Get | schema.js:145 | A property read `o[key]` is present exactly when `key` is an own key of `o`, and it is then the value stored under that key. |
| Js.Entries | schema.js:97 | `Object.entries(o)` has one pair per own key, in key order, with no key repeated; pair i is the i-th key with its stored value. |
| Js.Map | schema.js:117-122 | `Array.prototype.map` returns a list of the same length whose element i is the function applied to element i of the input. |
| Resolvers.ContinentByCode | schema.js:144-152 | `Query.continent` returns a continent exactly when the code is in the table with a non-empty name. The result carries the looked-up code and the stored name. |
| Resolvers.CountryByCode | schema.js:160-168 | `Query.country` returns absent exactly for an unknown code. Otherwise it returns the stored record with `code` set to the looked-up key and every other field unchanged. |
| Resolvers.LanguageByCode | schema.js:176-184 | `Query.language` returns absent exactly for an unknown code. Otherwise it returns the stored record with `code` set to the looked-up key and every other field unchanged. |
| Resolvers.ListQuery | schema.js:169-175 | A list query throws `TypeError` exactly when the reduce that builds the query throws. Otherwise it returns, in table order, the projected entries that `sift` accepts, and no more elements than the table has keys. |
| Resolvers.Continents | schema.js:153-159 | `Query.continents` returns, in table order, the `{code, name}` entries that `sift` accepts. Each element's name is the one stored under its code. |
| Resolvers.Countries | schema.js:169-175 | `Query.countries` returns, in table order, the tagged country entries that `sift` accepts. Each element is what `Query.country` returns for the code it carries. |
| Resolvers.Languages | schema.js:185-191 | `Query.languages` returns, in table order, the tagged language entries that `sift` accepts. Each element is what `Query.language` returns for the code it carries. |
| Resolvers.UnfilteredListIsWholeTable | schema.js:84-94 | With the filter omitted, a list query returns every projected table entry in table order, provided `sift` accepts every record for the empty query. |
| Resolvers.CountryGetterAgreesWithList | schema.js:160-175 | The record `Query.country` returns for a known code is in `Query.countries` exactly when `sift` accepts it. |
| Resolvers.Capital | schema.js:110 | `Country.capital` is absent when the stored capital is missing or empty. Otherwise it is the stored capital. |
| Resolvers.Currency | schema.js:111 | `Country.currency` is absent when the stored currency is missing or empty. Otherwise it is the stored currency. |
| Resolvers.Rtl | schema.js:141 | `Language.rtl` is true exactly when the stored `rtl` flag is set and true. |
| Resolvers.CountryContinent | schema.js:112-115 | `Country.continent` carries the country's continent code. It has a name exactly when the continent table knows that code, and the name is then the stored one, even when empty. When that name is non-empty, the result is what `Query.continent` returns for the code. |
| Resolvers.CountryLanguages | schema.js:116-123 | `Country.languages` has the same length and order as the stored language codes, and element i has the i-th code. A known code gives what `Query.language` returns. An unknown code gives a language with no name, no native name and `rtl` false. |
| Resolvers.CountryStates | schema.js:124-125 | `Country.states` returns exactly the provinces whose `country` equals the country's `code`, in province-list order, each as many times as it occurs in the province list. |
| Resolvers.ContinentCountries | schema.js:132-139 | `Continent.countries` returns exactly the country entries whose stored continent is the continent's code, in table order. Each element is what `Query.country` returns for the code it carries. |
| Resolvers.FilteredEntriesAreFilteredProjection | schema.js:132-139 | Filtering the entries on the continent code and then tagging them gives the same list as tagging every entry and then filtering on the continent code. |
| Resolvers.ContinentCountriesIgnoreOrder | schema.js:132-139 | Two tables with the same entries in different key orders give `Continent.countries` the same members. |
| Resolvers.StateCode | schema.js:128 | `State.code` is a plain read of the province's `short` field; a province without one has no code. |
| Resolvers.StateCountry | schema.js:129 | As written, `State.country` returns the stored record for the state's country code, with no `code` tag, or absent for an unknown code. |
| Resolvers.StateCountryLosesItsStates | schema.js:124-129 | For a stored record without a code, the country `State.country` returns has no `code`, and its `Country.states` is empty. The same country reached through `Query.country` lists the state. |
| Resolvers.StateCountryTagged | schema.js:129 | Corrected `State.country`: it returns exactly what `Query.country` returns for the state's country code, tagged with that code. |
| Resolvers.StateCountryRoundTrip | schema.js:124-129 | With the corrected resolver, going from a province to its country and back through `Country.states` finds the province again. |
| Mutation.WithProperties | schema.js:203 | The spread-then-assign record has exactly the given `comment` and `url`. An absent argument clears the field. Restoring the two old values gives back the original record, so no other field changed. |
| Mutation.EditedTable | schema.js:199-205 | An unknown code leaves the table unchanged. Otherwise the key order and key set stay the same, the entry under `code` gets the new comment and url, and every other entry is unchanged. |
| Mutation.CountryStore.EditCountryProperties | schema.js:195-207 | Returns absent, with the table unchanged, exactly when the code is not an own key. Otherwise it returns the updated stored record, and the table becomes `EditedTable`. A following `Query.country` for that code shows the update. |
| Mutation.EditResultLosesItsCode | schema.js:203-207 | As written, the mutation's result for a stored record without a code has no `code`, and `Country.states` of it is empty, while the country `Query.country` shows after the edit lists the province. |
| Mutation.EditResultTagged | schema.js:195-207 | Corrected result: absent exactly for an unknown code; otherwise it carries the code and the new comment and url, and it is exactly what `Query.country` returns for the code after the edit. |
| Mutation.EditResultTaggedKeepsItsStates | schema.js:195-207 | With the corrected result, `Country.states` of the edited country lists every province of that country. |
| Mutation.EditThenQuery | schema.js:195-207 | After an edit, `Query.country` returns the edited record for the edited code and its previous answer for every other code. |
| Mutation.EditIsIdempotent | schema.js:203-205 | Applying the same edit twice gives the same table as applying it once. |
| Mutation.EditKeepsListOrder | schema.js:205 | Overwriting an existing key keeps the table's order. The projected list that `Query.countries` filters changes only at the edited code's position. |

## Findings

| source | as written | input that shows it | evidently intended | confidence | as-written member | corrected member |
|---|---|---|---|---|---|---|
| schema.js:129 | `State.country` returns `countries[state.country]`, the stored record, without adding its key as `code`, as `Continent.countries`, `Query.country` and `Query.countries` do (schema.js:135-137, 163-166, 171-174). | `country(code: "FR") { states { country { code states { name } } } }` with the dataset's records carrying no `code` field: the inner `code` is missing although the schema declares it `ID!`, so GraphQL reports an error and nulls the enclosing `country` field; a query asking only for the inner `states` gets an empty list. | `{...countries[state.country], code: state.country}`: the country `Query.country` returns, so its `code` is set and its states include the state. | medium; depends on the dataset's country records having no `code` field; not executed | Resolvers.StateCountryLosesItsStates | Resolvers.StateCountryTagged |
| schema.js:207 | `editCountryProperties` returns `updatedCountry`, the stored record it wrote, without adding its key as `code`. | `editCountryProperties(country: "FR", comment: "hi") { code }` with the dataset's records carrying no `code` field: the table is written, but the result's `code` is missing although the schema declares it `ID!`, so GraphQL reports an error and nulls the mutation's result; asking only for `states` gets an empty list. | `{...updatedCountry, code}`: the country `Query.country` returns after the edit. | medium; depends on the dataset's country records having no `code` field; not executed | Mutation.EditResultLosesItsCode | Mutation.EditResultTagged |

## Left out

- Resolvers.ContinentByCode: for a continent stored with an empty name, the source returns the empty string itself and GraphQL completes it as a Continent (errors for `code` and `name`, an empty `countries`); the model returns no continent. The dataset has no empty continent names.
- Server construction, schema-file reading, port configuration and the serverless request shim in index.js and netlify/functions/graphql/graphql.js are transport plumbing and are not modelled.
- The GraphQL type definitions (`typeDefs`) are declarative wiring. They only shape the datatypes in `entities.dfy`. GraphQL's own non-null checks are not modelled either, for example the error for an undefined `State.country`.
- Errors `sift` raises while compiling the query are not modelled, for example the `SyntaxError` from an invalid `regex` operand. The model's `sift` cannot throw, so `TypeError` from `Object.entries(null)` is the only failure of a list query.
- The predicate `sift` compiles from a query, including the `regex` and `glob` matching rules. `sift` is a foreign library, so it is a parameter.
- The contents of the `countries-list` and `provinces` packages are foreign data, so they are parameters.
- The contact store (create, edit and delete contact, plus the per-country contact lists) lives in resolvers.js. resolvers.js is not part of this model.
- A property lookup that falls through to the object prototype, such as `countries["constructor"]`, is not modelled. The getters treat only own keys as present.
- The language table's `rtl` value is modelled as an optional boolean. The dataset actually stores a number that `Boolean(...)` coerces.
- Resolvers.ContinentCountriesIgnoreOrder: states that the members agree across key orders, not that the two lists have equal lengths or multiplicities.
