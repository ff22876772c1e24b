/** The records of the country reference dataset and the entities of the
    GraphQL schema built from them (schema.js, `typeDefs`). */
module Entities {
  import opened Wrappers

  /** A continent: its code and the name the continent table holds for it
      (absent when a country names a continent code the table lacks). */
  datatype Continent = Continent(code: string, name: Option<string>)

  /** A country record. The dataset stores it under its code without a
      `code` field of its own (`code` is None there); the resolvers add the
      key as `code` when they project it. */
  datatype Country = Country(
    code: Option<string>,
    name: string,
    native: string,
    phone: string,
    continent: string,
    capital: Option<string>,
    currency: Option<string>,
    languages: seq<string>,
    emoji: string,
    emojiU: string,
    url: Option<string>,
    comment: Option<string>)

  /** A language record; `rtl` is set only on right-to-left languages. */
  datatype Language = Language(code: Option<string>, name: Option<string>, native: Option<string>, rtl: Option<bool>)

  /** A province (a State of the schema): `short` is the State's `code`,
      `country` the code of the country it belongs to. */
  datatype Province = Province(short: Option<string>, name: string, country: string)
}
