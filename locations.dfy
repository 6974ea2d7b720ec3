/** The location and interest tables (frontend/src/data/locations.ts): the
    option lists built from them, the searches and the translated names.
    The tables themselves are parameters, kept in the order of their keys,
    and every entry in them has an English name.  `localeCompare` is an
    opaque collation key `collate` on labels. */
module Locations {
  import opened Wrappers
  import opened Text
  import opened Sorting

  /** The names of one entry by language code; every entry has English. */
  type Names = t: map<string, string> | "en" in t witness map["en" := ""]

  /** `t[language] || t.en`. */
  function NameIn(t: Names, language: string): (r: string)
    ensures language in t && t[language] != "" ==> r == t[language]
    ensures !(language in t && t[language] != "") ==> r == t["en"]
  {
    if language in t && t[language] != "" then t[language] else t["en"]
  }

  /** A keyed table in the order of `Object.keys`. */
  type Table<T> = seq<(string, T)>

  /** `table[key]`: the entry under `key`, if any. */
  function Find<T>(table: Table<T>, key: string): (r: Option<T>)
    ensures r.None? <==> forall i :: 0 <= i < |table| ==> table[i].0 != key
    ensures r.Some? ==> exists i :: 0 <= i < |table| && table[i] == (key, r.value)
  {
    if table == [] then None
    else if table[0].0 == key then Some(table[0].1)
    else
      var rest := Find(table[1..], key);
      assert forall i :: 0 < i < |table| ==> table[i] == table[1..][i - 1];
      assert rest.Some? ==> exists i :: 0 <= i < |table| && table[i] == (key, rest.value) by {
        if rest.Some? {
          var j :| 0 <= j < |table[1..]| && table[1..][j] == (key, rest.value);
          assert table[j + 1] == (key, rest.value);
        }
      }
      rest
  }

  datatype Country = Country(flag: string, translations: Names, cities: Option<Table<Names>>)

  datatype Choice = Choice(value: string, name: string)

  /** The flag, a space and the name. */
  function CountryLabel(c: Country, language: string): string
  {
    c.flag + " " + NameIn(c.translations, language)
  }

  /** One choice per country, in table order, before sorting. */
  function CountryChoices(countries: Table<Country>, language: string): (r: seq<Choice>)
    ensures |r| == |countries|
    ensures forall i :: 0 <= i < |r| ==>
      r[i].value == countries[i].0 && r[i].name == CountryLabel(countries[i].1, language)
  {
    seq(|countries|, i requires 0 <= i < |countries| => Choice(countries[i].0, CountryLabel(countries[i].1, language)))
  }

  /** One choice per entry of a table of names, in table order. */
  function NameChoices(table: Table<Names>, language: string): (r: seq<Choice>)
    ensures |r| == |table|
    ensures forall i :: 0 <= i < |r| ==> r[i].value == table[i].0 && r[i].name == NameIn(table[i].1, language)
  {
    seq(|table|, i requires 0 <= i < |table| => Choice(table[i].0, NameIn(table[i].1, language)))
  }

  /** Choices ordered by the collation key of their labels. */
  function SortedByLabel(choices: seq<Choice>, collate: string -> int): (r: seq<Choice>)
    ensures multiset(r) == multiset(choices) && |r| == |choices|
    ensures forall i, j :: 0 <= i < j < |r| ==> collate(r[i].name) <= collate(r[j].name)
  {
    var r := SortBy(choices, (c: Choice) => collate(c.name));
    assert SortedBy(r, (c: Choice) => collate(c.name));
    r
  }

  /** `getCountryOptions`: every country once, labelled with its flag and
      name, ordered by label. */
  function CountryOptions(countries: Table<Country>, language: string, collate: string -> int): (r: seq<Choice>)
    ensures multiset(r) == multiset(CountryChoices(countries, language)) && |r| == |countries|
    ensures forall i, j :: 0 <= i < j < |r| ==> collate(r[i].name) <= collate(r[j].name)
  {
    SortedByLabel(CountryChoices(countries, language), collate)
  }

  /** Each option is a country of the table under its label, and each
      country of the table has an option. */
  lemma CountryOptionsOnePerCountry(countries: Table<Country>, language: string, collate: string -> int)
    ensures forall o :: o in CountryOptions(countries, language, collate) ==>
      exists i :: 0 <= i < |countries| && o == Choice(countries[i].0, CountryLabel(countries[i].1, language))
    ensures forall i :: 0 <= i < |countries| ==>
      Choice(countries[i].0, CountryLabel(countries[i].1, language)) in CountryOptions(countries, language, collate)
  {
    var u := CountryChoices(countries, language);
    var r := CountryOptions(countries, language, collate);
    forall o | o in r
      ensures exists i :: 0 <= i < |countries| && o == Choice(countries[i].0, CountryLabel(countries[i].1, language))
    {
      assert o in multiset(r);
      assert o in u;
      var i :| 0 <= i < |u| && u[i] == o;
    }
    forall i | 0 <= i < |countries|
      ensures Choice(countries[i].0, CountryLabel(countries[i].1, language)) in r
    {
      assert u[i] in multiset(u);
    }
  }

  /** `getCitiesForCountry`: nothing for an unknown country or one without
      cities; otherwise its cities, labelled in the language or English,
      ordered by label. */
  function CitiesForCountry(countries: Table<Country>, countryKey: string, language: string, collate: string -> int): (r: seq<Choice>)
    ensures Find(countries, countryKey).None? ==> r == []
    ensures Find(countries, countryKey).Some? && Find(countries, countryKey).value.cities.None? ==> r == []
    ensures Find(countries, countryKey).Some? && Find(countries, countryKey).value.cities.Some? ==>
      multiset(r) == multiset(NameChoices(Find(countries, countryKey).value.cities.value, language))
    ensures forall i, j :: 0 <= i < j < |r| ==> collate(r[i].name) <= collate(r[j].name)
  {
    var country := Find(countries, countryKey);
    if country.None? || country.value.cities.None? then []
    else SortedByLabel(NameChoices(country.value.cities.value, language), collate)
  }

  /** The choices whose lower-cased label contains the lower-cased query. */
  function Matching(choices: seq<Choice>, query: string): (r: seq<Choice>)
    ensures forall c :: c in r <==> c in choices && Contains(Lower(c.name), Lower(query))
    ensures |r| <= |choices|
  {
    Filter(choices, (c: Choice) => Contains(Lower(c.name), Lower(query)))
  }

  /** `searchCountries`: every option for an empty query, else those whose
      label contains the query regardless of case. */
  function SearchCountries(countries: Table<Country>, query: string, language: string, collate: string -> int): (r: seq<Choice>)
    ensures query == "" ==> r == CountryOptions(countries, language, collate)
    ensures query != "" ==> forall c :: c in r <==>
      c in CountryOptions(countries, language, collate) && Contains(Lower(c.name), Lower(query))
    ensures forall i, j :: 0 <= i < j < |r| ==> collate(r[i].name) <= collate(r[j].name)
  {
    var options := CountryOptions(countries, language, collate);
    FilterKeepsSorted(options, (c: Choice) => Contains(Lower(c.name), Lower(query)), (c: Choice) => collate(c.name));
    if query == "" then options else Matching(options, query)
  }

  /** `searchCities`: the same search over one country's cities. */
  function SearchCities(countries: Table<Country>, countryKey: string, query: string, language: string, collate: string -> int): (r: seq<Choice>)
    ensures query == "" ==> r == CitiesForCountry(countries, countryKey, language, collate)
    ensures query != "" ==> forall c :: c in r <==>
      c in CitiesForCountry(countries, countryKey, language, collate) && Contains(Lower(c.name), Lower(query))
    ensures forall i, j :: 0 <= i < j < |r| ==> collate(r[i].name) <= collate(r[j].name)
  {
    var cities := CitiesForCountry(countries, countryKey, language, collate);
    FilterKeepsSorted(cities, (c: Choice) => Contains(Lower(c.name), Lower(query)), (c: Choice) => collate(c.name));
    if query == "" then cities else Matching(cities, query)
  }

  /** A search ignores the case of the query. */
  lemma SearchIgnoresQueryCase(choices: seq<Choice>, query: string)
    ensures Matching(choices, Lower(query)) == Matching(choices, query)
  {
    LowerIdempotent(query);
  }

  /** `getTranslatedInterests`: one choice per interest, in table order,
      not sorted. */
  function TranslatedInterests(interests: Table<Names>, language: string): (r: seq<Choice>)
    ensures |r| == |interests|
    ensures forall i :: 0 <= i < |r| ==> r[i].value == interests[i].0
  {
    NameChoices(interests, language)
  }

  /** `getTranslatedInterest`: the key itself for an unknown interest. */
  function TranslatedInterest(interests: Table<Names>, key: string, language: string): (r: string)
    ensures Find(interests, key).None? ==> r == key
    ensures Find(interests, key).Some? ==> r == NameIn(Find(interests, key).value, language)
  {
    match Find(interests, key)
    case None => key
    case Some(names) => NameIn(names, language)
  }

  /** The single lookup agrees with the list: with distinct keys, an
      interest's choice is labelled with its translated name. */
  lemma InterestLookupMatchesList(interests: Table<Names>, language: string, i: nat)
    requires i < |interests|
    requires forall a, b :: 0 <= a < b < |interests| ==> interests[a].0 != interests[b].0
    ensures TranslatedInterests(interests, language)[i].name == TranslatedInterest(interests, interests[i].0, language)
  {
    var f := Find(interests, interests[i].0);
    var j :| 0 <= j < |interests| && interests[j] == (interests[i].0, f.value);
    assert j == i;
  }

  /** A language without a name for an entry shows its English name. */
  lemma MissingLanguageFallsBack(t: Names, language: string)
    requires language !in t || t[language] == ""
    ensures NameIn(t, language) == t["en"]
  {
  }
}
