/**
 * The three single-purpose search tabs. Each `handleSearch` looks its field
 * up, lower-cased, in one table and always leaves a non-null result: the
 * table entry, or empty buckets when the key is missing. None of them
 * guards against an empty field.
 */
module TabSearch {
  import opened Wrappers
  import opened Chars
  import opened Tables

  /** CitySearch: the results state after a search for `city`. */
  function CitySearch(city: string, data: SampleData): (results: Option<Courses>)
    ensures results.Some?
    ensures Lower(city) in data.cities ==> results.value == data.cities[Lower(city)]
    ensures Lower(city) !in data.cities ==> results.value == NoCourses
  {
    Some(LookupIgnoringCase(data.cities, city, NoCourses))
  }

  /** DishSearch: the results state after a search for `dish`. */
  function DishSearch(dish: string, data: SampleData): (results: Option<Ranking>)
    ensures results.Some?
    ensures Lower(dish) in data.dishes ==> results.value == data.dishes[Lower(dish)]
    ensures Lower(dish) !in data.dishes ==> results.value == NoRanking
  {
    Some(LookupIgnoringCase(data.dishes, dish, NoRanking))
  }

  /** RestaurantSearch: the results state after a search; the city field is read by nothing. */
  function RestaurantSearch(city: string, restaurant: string, data: SampleData): (results: Option<Courses>)
    ensures results.Some?
    ensures Lower(restaurant) in data.restaurants ==> results.value == data.restaurants[Lower(restaurant)]
    ensures Lower(restaurant) !in data.restaurants ==> results.value == NoCourses
  {
    Some(LookupIgnoringCase(data.restaurants, restaurant, NoCourses))
  }

  lemma CitySearchIgnoresCase(a: string, b: string, data: SampleData)
    requires SameIgnoringCase(a, b)
    ensures CitySearch(a, data) == CitySearch(b, data)
  {
    LookupIgnoresCase(data.cities, a, b, NoCourses);
  }

  lemma DishSearchIgnoresCase(a: string, b: string, data: SampleData)
    requires SameIgnoringCase(a, b)
    ensures DishSearch(a, data) == DishSearch(b, data)
  {
    LookupIgnoresCase(data.dishes, a, b, NoRanking);
  }

  lemma RestaurantSearchIgnoresCase(city: string, a: string, b: string, data: SampleData)
    requires SameIgnoringCase(a, b)
    ensures RestaurantSearch(city, a, data) == RestaurantSearch(city, b, data)
  {
    LookupIgnoresCase(data.restaurants, a, b, NoCourses);
  }

  /** The restaurant tab's result depends on the restaurant name alone. */
  lemma RestaurantSearchIgnoresCity(city1: string, city2: string, restaurant: string, data: SampleData)
    ensures RestaurantSearch(city1, restaurant, data) == RestaurantSearch(city2, restaurant, data)
  {
  }

  // ---------------------------------------------------------------------------
  // The tabs as written, with JavaScript's property lookup.
  // ---------------------------------------------------------------------------

  /** CitySearch's lookup as written: an inherited member can stand in for the buckets. */
  function CitySearchAsWritten(city: string, data: SampleData): (results: JsValue<Courses>)
    ensures Lower(city) !in ObjectPrototypeMembers ==> results == Own(CitySearch(city, data).value)
  {
    LookupAsWritten(data.cities, city, NoCourses)
  }

  /** DishSearch's lookup as written. */
  function DishSearchAsWritten(dish: string, data: SampleData): (results: JsValue<Ranking>)
    ensures Lower(dish) !in ObjectPrototypeMembers ==> results == Own(DishSearch(dish, data).value)
  {
    LookupAsWritten(data.dishes, dish, NoRanking)
  }

  /** RestaurantSearch's lookup as written. */
  function RestaurantSearchAsWritten(city: string, restaurant: string, data: SampleData)
    : (results: JsValue<Courses>)
    ensures Lower(restaurant) !in ObjectPrototypeMembers
            ==> results == Own(RestaurantSearch(city, restaurant, data).value)
  {
    LookupAsWritten(data.restaurants, restaurant, NoCourses)
  }

  /**
   * Searching the sample tables for "Constructor" on any tab yields the
   * inherited `Object` constructor instead of buckets, so the columns that
   * read `.appetizers` or `.top` from it get `undefined`; the corrected
   * lookup yields empty buckets.
   */
  lemma ConstructorBreaksTabs(data: SampleData)
    requires "constructor" !in data.cities && "constructor" !in data.dishes
    requires "constructor" !in data.restaurants
    ensures CitySearchAsWritten("Constructor", data) == Inherited("constructor")
    ensures DishSearchAsWritten("Constructor", data) == Inherited("constructor")
    ensures RestaurantSearchAsWritten("", "Constructor", data) == Inherited("constructor")
    ensures CitySearch("Constructor", data) == Some(NoCourses)
    ensures DishSearch("Constructor", data) == Some(NoRanking)
    ensures RestaurantSearch("", "Constructor", data) == Some(NoCourses)
  {
    ConstructorEscapesDefault(data.cities, NoCourses);
    ConstructorEscapesDefault(data.dishes, NoRanking);
    ConstructorEscapesDefault(data.restaurants, NoCourses);
  }
}
