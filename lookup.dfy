/** The two dictionary lookups both entry scripts perform: resolving a typed
    city name through the Korean-to-English table, and the case-insensitive
    lookup of a demo record. Each script has its own tables. */
module Lookup {
  import opened Text
  import opened Weather

  /** `convert_korean_to_english_city`: strip the input; a table key is
      translated and flagged as converted, anything else comes back
      stripped and unconverted. */
  function Resolve(table: map<string, string>, cityName: string): (r: Resolution)
    ensures r.converted <==> Strip(cityName) in table
    ensures r.converted ==> r.name == table[Strip(cityName)]
    ensures !r.converted ==> r.name == Strip(cityName)
  {
    var key := Strip(cityName);
    if key in table then Resolution(table[key], true) else Resolution(key, false)
  }

  /** An unpadded key resolves to its value. */
  lemma ResolveKey(table: map<string, string>, key: string)
    requires key in table && Strip(key) == key
    ensures Resolve(table, key) == Resolution(table[key], true)
  {
  }

  /** A table whose English names are neither keys nor padded with white
      space. */
  ghost predicate EnglishValues(table: map<string, string>) {
    forall k :: k in table ==> table[k] !in table && Strip(table[k]) == table[k]
  }

  /** Resolving a resolved name again changes nothing and converts nothing,
      so feeding a fetcher's own query back through the resolver is safe. */
  lemma ResolveTwice(table: map<string, string>, cityName: string)
    requires EnglishValues(table)
    ensures Resolve(table, Resolve(table, cityName).name)
         == Resolution(Resolve(table, cityName).name, false)
  {
    var key := Strip(cityName);
    if key !in table {
      StripIdempotent(cityName);
    }
  }

  /** `demo_data.get(city_name.lower(), None)`. */
  function DemoLookup<V>(table: map<string, V>, cityName: string): (r: Option<V>)
    ensures r.Some? <==> Lower(cityName) in table
    ensures r.Some? ==> r.value == table[Lower(cityName)]
  {
    var key := Lower(cityName);
    if key in table then Some(table[key]) else None
  }

  /** Every key of a lower-case table is reachable however it is cased:
      any spelling whose lower-case form is the key finds the key's record. */
  lemma DemoLookupIgnoresCase<V>(table: map<string, V>, key: string, cityName: string)
    requires key in table && Lower(key) == key
    requires Lower(cityName) == key
    ensures DemoLookup(table, cityName) == Some(table[key])
    ensures DemoLookup(table, key) == Some(table[key])
  {
  }
}
