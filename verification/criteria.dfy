/** The three free-text search fields shared by the query builder and the unified search. */
module Criteria {

  datatype Criteria = Criteria(dish: string, city: string, restaurant: string)

  /**
   * JavaScript truthiness of a string: only the empty string is falsy.
   * Nothing is trimmed, so a field holding only spaces counts as provided.
   */
  predicate Provided(s: string) { |s| > 0 }

  predicate NoneProvided(c: Criteria) {
    !Provided(c.dish) && !Provided(c.city) && !Provided(c.restaurant)
  }
}
