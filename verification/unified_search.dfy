/**
 * The combined search box. `handleSearch` refuses a restaurant without a
 * city, and otherwise picks one lookup by precedence: restaurant (with
 * city), then dish, then city. With no field filled in it does nothing.
 */
module UnifiedSearch {
  import opened Wrappers
  import opened Chars
  import opened Criteria
  import opened Tables
  import TabSearch

  /** The `{ type, data }` results state once a search has shown something. */
  datatype Shown =
    | CityResults(courses: Courses)
    | RestaurantResults(courses: Courses)
    | DishResults(ranking: Ranking)

  /** What one press of Search decides. */
  datatype Outcome =
    | CityRequired    // the destructive "City Required" notice; results untouched
    | NoChange        // no branch applies; results untouched
    | Show(shown: Shown)

  function HandleSearch(c: Criteria, data: SampleData): (o: Outcome)
    ensures o == CityRequired <==> Provided(c.restaurant) && !Provided(c.city)
    ensures o == NoChange <==> NoneProvided(c)
    ensures (o.Show? && o.shown.RestaurantResults?) <==> Provided(c.restaurant) && Provided(c.city)
    ensures (o.Show? && o.shown.DishResults?) <==> !Provided(c.restaurant) && Provided(c.dish)
    ensures (o.Show? && o.shown.CityResults?) <==>
              !Provided(c.restaurant) && !Provided(c.dish) && Provided(c.city)
    ensures o.Show? && o.shown.RestaurantResults? ==>
              Some(o.shown.courses) == TabSearch.RestaurantSearch(c.city, c.restaurant, data)
    ensures o.Show? && o.shown.DishResults? ==> Some(o.shown.ranking) == TabSearch.DishSearch(c.dish, data)
    ensures o.Show? && o.shown.CityResults? ==> Some(o.shown.courses) == TabSearch.CitySearch(c.city, data)
  {
    if Provided(c.restaurant) && !Provided(c.city) then CityRequired
    else if Provided(c.restaurant) && Provided(c.city) then
      Show(RestaurantResults(LookupIgnoringCase(data.restaurants, c.restaurant, NoCourses)))
    else if Provided(c.dish) then
      Show(DishResults(LookupIgnoringCase(data.dishes, c.dish, NoRanking)))
    else if Provided(c.city) then
      Show(CityResults(LookupIgnoringCase(data.cities, c.city, NoCourses)))
    else NoChange
  }

  /** The component's visible state after a search: the results and whether the notice fired. */
  datatype View = View(results: Option<Shown>, cityRequiredNotice: bool)

  /** One search starting from the current `results`. */
  function Search(results: Option<Shown>, c: Criteria, data: SampleData): (v: View)
    ensures v.cityRequiredNotice <==> Provided(c.restaurant) && !Provided(c.city)
    ensures (v.cityRequiredNotice || NoneProvided(c)) ==> v.results == results
    ensures !v.cityRequiredNotice && !NoneProvided(c) ==> v.results.Some?
    ensures HandleSearch(c, data).Show? ==> v.results == Some(HandleSearch(c, data).shown)
  {
    match HandleSearch(c, data)
    case CityRequired => View(results, true)
    case NoChange => View(results, false)
    case Show(shown) => View(Some(shown), false)
  }

  /**
   * The results value each branch stores as the code is written: the plain
   * JavaScript property lookup, which can yield an inherited member.
   */
  datatype ShownAsWritten =
    | CityValue(courses: JsValue<Courses>)
    | RestaurantValue(courses: JsValue<Courses>)
    | DishValue(ranking: JsValue<Ranking>)

  datatype OutcomeAsWritten =
    | Refused
    | Unchanged
    | Stored(value: ShownAsWritten)

  /** A corrected outcome, seen as the value the code would store. */
  function AsStored(o: Outcome): OutcomeAsWritten {
    match o
    case CityRequired => Refused
    case NoChange => Unchanged
    case Show(CityResults(courses)) => Stored(CityValue(Own(courses)))
    case Show(RestaurantResults(courses)) => Stored(RestaurantValue(Own(courses)))
    case Show(DishResults(ranking)) => Stored(DishValue(Own(ranking)))
  }

  /** No field lower-cases to an inherited `Object.prototype` member. */
  predicate AvoidsPrototype(c: Criteria) {
    Lower(c.dish) !in ObjectPrototypeMembers
    && Lower(c.city) !in ObjectPrototypeMembers
    && Lower(c.restaurant) !in ObjectPrototypeMembers
  }

  /**
   * `handleSearch` as written: the same guard and precedence, with each
   * branch storing `table[key] || default`.
   */
  function HandleSearchAsWritten(c: Criteria, data: SampleData): (o: OutcomeAsWritten)
    ensures o.Refused? <==> HandleSearch(c, data) == CityRequired
    ensures o.Unchanged? <==> HandleSearch(c, data) == NoChange
    ensures AvoidsPrototype(c) ==> o == AsStored(HandleSearch(c, data))
  {
    if Provided(c.restaurant) && !Provided(c.city) then Refused
    else if Provided(c.restaurant) && Provided(c.city) then
      var v := LookupAsWritten(data.restaurants, c.restaurant, NoCourses);
      assert Lower(c.restaurant) !in ObjectPrototypeMembers ==>
               v == Own(LookupIgnoringCase(data.restaurants, c.restaurant, NoCourses)) by {
        if Lower(c.restaurant) !in ObjectPrototypeMembers {
          LookupAsWrittenAgrees(data.restaurants, c.restaurant, NoCourses);
        }
      }
      Stored(RestaurantValue(v))
    else if Provided(c.dish) then
      var v := LookupAsWritten(data.dishes, c.dish, NoRanking);
      assert Lower(c.dish) !in ObjectPrototypeMembers ==>
               v == Own(LookupIgnoringCase(data.dishes, c.dish, NoRanking)) by {
        if Lower(c.dish) !in ObjectPrototypeMembers {
          LookupAsWrittenAgrees(data.dishes, c.dish, NoRanking);
        }
      }
      Stored(DishValue(v))
    else if Provided(c.city) then
      var v := LookupAsWritten(data.cities, c.city, NoCourses);
      assert Lower(c.city) !in ObjectPrototypeMembers ==>
               v == Own(LookupIgnoringCase(data.cities, c.city, NoCourses)) by {
        if Lower(c.city) !in ObjectPrototypeMembers {
          LookupAsWrittenAgrees(data.cities, c.city, NoCourses);
        }
      }
      Stored(CityValue(v))
    else Unchanged
  }

  /**
   * `"Constructor"` in any branch stores the inherited `Object` function,
   * whose course or ranking fields are undefined; the corrected dispatch
   * shows that branch's empty buckets.
   */
  lemma ConstructorBreaksHandleSearch(city: string, data: SampleData)
    requires Provided(city)
    requires "constructor" !in data.restaurants
    requires "constructor" !in data.dishes
    requires "constructor" !in data.cities
    ensures HandleSearchAsWritten(Criteria("", city, "Constructor"), data)
            == Stored(RestaurantValue(Inherited("constructor")))
    ensures HandleSearch(Criteria("", city, "Constructor"), data) == Show(RestaurantResults(NoCourses))
    ensures HandleSearchAsWritten(Criteria("Constructor", "", ""), data)
            == Stored(DishValue(Inherited("constructor")))
    ensures HandleSearch(Criteria("Constructor", "", ""), data) == Show(DishResults(NoRanking))
    ensures HandleSearchAsWritten(Criteria("", "Constructor", ""), data)
            == Stored(CityValue(Inherited("constructor")))
    ensures HandleSearch(Criteria("", "Constructor", ""), data) == Show(CityResults(NoCourses))
  {
    ConstructorEscapesDefault(data.restaurants, NoCourses);
    ConstructorEscapesDefault(data.dishes, NoRanking);
    ConstructorEscapesDefault(data.cities, NoCourses);
  }

  /** With a restaurant and a city, only the restaurant name picks the result; city and dish are ignored. */
  lemma RestaurantKeyOnly(c1: Criteria, c2: Criteria, data: SampleData)
    requires Provided(c1.restaurant) && Provided(c1.city) && Provided(c2.city)
    requires c1.restaurant == c2.restaurant
    ensures HandleSearch(c1, data) == HandleSearch(c2, data)
  {
  }

  /** Fields that differ only in letter case give the same outcome. */
  lemma HandleSearchIgnoresCase(c1: Criteria, c2: Criteria, data: SampleData)
    requires SameIgnoringCase(c1.dish, c2.dish)
    requires SameIgnoringCase(c1.city, c2.city)
    requires SameIgnoringCase(c1.restaurant, c2.restaurant)
    ensures HandleSearch(c1, data) == HandleSearch(c2, data)
  {
    LookupIgnoresCase(data.restaurants, c1.restaurant, c2.restaurant, NoCourses);
    LookupIgnoresCase(data.dishes, c1.dish, c2.dish, NoRanking);
    LookupIgnoresCase(data.cities, c1.city, c2.city, NoCourses);
  }

  /** A missing key shows empty buckets of the shape its branch displays. */
  lemma MissingKeyShowsEmpty(c: Criteria, data: SampleData)
    ensures Provided(c.restaurant) && Provided(c.city) && Lower(c.restaurant) !in data.restaurants
            ==> HandleSearch(c, data) == Show(RestaurantResults(NoCourses))
    ensures !Provided(c.restaurant) && Provided(c.dish) && Lower(c.dish) !in data.dishes
            ==> HandleSearch(c, data) == Show(DishResults(NoRanking))
    ensures !Provided(c.restaurant) && !Provided(c.dish) && Provided(c.city) && Lower(c.city) !in data.cities
            ==> HandleSearch(c, data) == Show(CityResults(NoCourses))
  {
  }

  /** Nothing is trimmed: a field of spaces counts as filled in. */
  lemma SpacesCountAsProvided(data: SampleData)
    ensures HandleSearch(Criteria("", "", " "), data) == CityRequired
    ensures HandleSearch(Criteria(" ", "", ""), data).Show?
  {
  }

  /**
   * The combined box demands a city for a restaurant search; the restaurant
   * tab does not, and shows a result for the same input.
   */
  lemma GuardOnlyInUnifiedSearch(restaurant: string, data: SampleData)
    requires Provided(restaurant)
    ensures HandleSearch(Criteria("", "", restaurant), data) == CityRequired
    ensures TabSearch.RestaurantSearch("", restaurant, data).Some?
  {
  }
}
