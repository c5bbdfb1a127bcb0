/** Searches against the sample tables. */
module Scenarios {
  import opened Wrappers
  import opened Chars
  import opened Criteria
  import opened Tables
  import Sample
  import TabSearch
  import UnifiedSearch

  lemma LowerPizza()
    ensures Lower("PizZA") == "pizza"
  {
    assert forall i :: 0 <= i < 5 ==> Lower("PizZA")[i] == "pizza"[i];
  }

  lemma LowerPeterLuger()
    ensures Lower("Peter Luger") == "peter luger"
  {
    assert forall i :: 0 <= i < 11 ==> Lower("Peter Luger")[i] == "peter luger"[i];
  }

  lemma LowerTokyo()
    ensures Lower("Tokyo") == "tokyo"
  {
    assert forall i :: 0 <= i < 5 ==> Lower("Tokyo")[i] == "tokyo"[i];
  }

  /** A dish search in any letter case finds the sample pizza rankings, on the tab and in the combined box. */
  lemma PizzaSearch()
    ensures TabSearch.DishSearch("PizZA", Sample.Data) == Some(Sample.Pizza)
    ensures UnifiedSearch.HandleSearch(Criteria("PizZA", "", ""), Sample.Data)
         == UnifiedSearch.Show(UnifiedSearch.DishResults(Sample.Pizza))
  {
    LowerPizza();
  }

  /**
   * A restaurant with a city shows that restaurant's courses, even when the
   * city and dish fields name something else.
   */
  lemma PeterLugerSearch()
    ensures UnifiedSearch.HandleSearch(Criteria("PizZA", "Paris", "Peter Luger"), Sample.Data)
         == UnifiedSearch.Show(UnifiedSearch.RestaurantResults(Sample.PeterLuger))
    ensures TabSearch.RestaurantSearch("", "Peter Luger", Sample.Data) == Some(Sample.PeterLuger)
  {
    LowerPeterLuger();
  }

  /** A city the tables do not hold shows three empty columns. */
  lemma UnknownCitySearch()
    ensures UnifiedSearch.HandleSearch(Criteria("", "Tokyo", ""), Sample.Data)
         == UnifiedSearch.Show(UnifiedSearch.CityResults(NoCourses))
  {
    LowerTokyo();
  }
}
