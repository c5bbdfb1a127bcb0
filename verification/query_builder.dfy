/**
 * `buildApiQuery`: the SQL-like filter sent to the external menu dataset,
 * before percent-encoding. Every non-empty term is spliced verbatim into a
 * `LIKE '%term%'` pattern, in the fixed order dish, city, restaurant.
 */
module QueryBuilder {
  import opened Wrappers
  import opened Criteria

  const Base: string := "SELECT name, restaurant_name, identifier, price_usd FROM `menu_items` WHERE 1=1"
  const Limit: string := " LIMIT 10"

  /** The dataset column each search field filters on. */
  const DishColumn: string := "name"
  const CityColumn: string := "identifier"
  const RestaurantColumn: string := "restaurant_name"

  function Opener(column: string): string { " AND " + column + " LIKE '%" }

  function Clause(column: string, term: string): string { Opener(column) + term + "%'" }

  /** The clause for a field, present only when the field is provided. */
  function OptionalClause(column: string, term: string): string {
    if Provided(term) then Clause(column, term) else ""
  }

  /** The clauses of the provided fields, in the order dish, city, restaurant. */
  function Filters(c: Criteria): string {
    OptionalClause(DishColumn, c.dish) + OptionalClause(CityColumn, c.city)
    + OptionalClause(RestaurantColumn, c.restaurant)
  }

  /** The query text `buildApiQuery` hands to `encodeURIComponent`. */
  function QueryText(c: Criteria): (q: string)
    ensures |q| >= |Base| + |Limit|
    ensures q[..|Base|] == Base
    ensures q[|q| - |Limit|..] == Limit
    ensures NoneProvided(c) ==> q == Base + Limit
  {
    Base + Filters(c) + Limit
  }

  // ---------------------------------------------------------------------------
  // Reading a query back: the inverse of QueryText on terms without quotes.
  // ---------------------------------------------------------------------------

  predicate QuoteFree(s: string) { forall i :: 0 <= i < |s| ==> s[i] != '\'' }

  predicate CriteriaQuoteFree(c: Criteria) {
    QuoteFree(c.dish) && QuoteFree(c.city) && QuoteFree(c.restaurant)
  }

  /** The position of the first single quote in `s`, if there is one. */
  function FirstQuote(s: string): (k: Option<nat>)
    ensures k.Some? ==> k.value < |s| && s[k.value] == '\'' && QuoteFree(s[..k.value])
    ensures k.None? ==> QuoteFree(s)
  {
    if s == [] then None
    else if s[0] == '\'' then Some(0)
    else match FirstQuote(s[1..])
      case None => None
      case Some(k) =>
        assert s[..k + 1] == [s[0]] + s[1..][..k];
        Some(k + 1)
  }

  datatype Parsed = Parsed(term: string, rest: string)

  /**
   * Reads a clause opened by `open` off the front of `s`. A string that does
   * not start with `open` has no such clause: the term is empty and nothing
   * is consumed. An opened clause must hold a non-empty term closed by `%'`.
   */
  function ReadClause(open: string, s: string): Option<Parsed> {
    if !(open <= s) then Some(Parsed("", s))
    else
      var body := s[|open|..];
      match FirstQuote(body)
      case None => None
      case Some(k) =>
        if k >= 2 && body[k - 1] == '%' then Some(Parsed(body[..k - 1], body[k + 1..])) else None
  }

  /** Reads the clause for `column` off the front of `s`. */
  function ParseClause(column: string, s: string): Option<Parsed> {
    ReadClause(Opener(column), s)
  }

  /** Reads the clauses and the closing limit that follow the fixed prefix. */
  function ParseFilters(s: string): Option<Criteria> {
    match ParseClause(DishColumn, s)
    case None => None
    case Some(d) =>
      match ParseClause(CityColumn, d.rest)
      case None => None
      case Some(c) =>
        match ParseClause(RestaurantColumn, c.rest)
        case None => None
        case Some(r) =>
          if r.rest == Limit then Some(Criteria(d.term, c.term, r.term)) else None
  }

  /** Recovers the search fields from a query text, or None if it is not one. */
  function ParseQuery(q: string): Option<Criteria> {
    if Base <= q then ParseFilters(q[|Base|..]) else None
  }

  lemma FirstQuoteIsFirst(s: string, k: nat)
    requires k < |s| && s[k] == '\'' && QuoteFree(s[..k])
    ensures FirstQuote(s) == Some(k)
  {
  }

  /** A clause followed by anything reads back as its term. */
  lemma ParseClauseOfClause(column: string, term: string, tail: string)
    requires Provided(term) && QuoteFree(term)
    ensures ParseClause(column, Clause(column, term) + tail) == Some(Parsed(term, tail))
  {
    var open := Opener(column);
    var s := Clause(column, term) + tail;
    assert s == open + (term + "%'" + tail);
    var body := s[|open|..];
    assert body == term + "%'" + tail;
    assert body[..|term| + 1] == term + "%";
    var pre := body[..|term| + 1];
    forall i | 0 <= i < |pre| ensures pre[i] != '\'' {
      if i < |term| { assert pre[i] == term[i]; }
    }
    FirstQuoteIsFirst(body, |term| + 1);
    assert body[..|term|] == term;
    assert body[|term| + 2..] == tail;
  }

  /** Where the clause for `column` is absent, nothing is consumed. */
  lemma ParseClauseOfAbsent(column: string, tail: string)
    requires !(Opener(column) <= tail)
    ensures ParseClause(column, OptionalClause(column, "") + tail) == Some(Parsed("", tail))
  {
    assert OptionalClause(column, "") + tail == tail;
  }

  /** One stage of the round trip: an optional clause, then whatever follows it. */
  lemma ParseOptionalClause(column: string, term: string, tail: string)
    requires QuoteFree(term)
    requires !(Opener(column) <= tail)
    ensures ParseClause(column, OptionalClause(column, term) + tail) == Some(Parsed(term, tail))
  {
    if Provided(term) {
      ParseClauseOfClause(column, term, tail);
    } else {
      assert term == "";
      ParseClauseOfAbsent(column, tail);
    }
  }

  /** A string is not a prefix of one that differs from it at some index of both. */
  lemma NotPrefixAt(a: string, b: string, i: nat)
    requires i < |a| && i < |b| && a[i] != b[i]
    ensures !(a <= b)
  {
  }

  /** A provided clause starts with its opener, whatever follows. */
  lemma ClauseStarts(column: string, term: string, rest: string, i: nat)
    requires Provided(term) && i < |Opener(column)|
    ensures (OptionalClause(column, term) + rest)[i] == Opener(column)[i]
    ensures |OptionalClause(column, term) + rest| > i
  {
  }

  /** The clauses that may follow the dish clause never open with it. */
  lemma NotDishOpener(city: string, restaurant: string)
    ensures !(Opener(DishColumn) <=
              OptionalClause(CityColumn, city) + (OptionalClause(RestaurantColumn, restaurant) + Limit))
  {
    var rest := OptionalClause(RestaurantColumn, restaurant) + Limit;
    var tail := OptionalClause(CityColumn, city) + rest;
    if Provided(city) {
      ClauseStarts(CityColumn, city, rest, 5);
      NotPrefixAt(Opener(DishColumn), tail, 5);
    } else if Provided(restaurant) {
      assert tail == rest;
      ClauseStarts(RestaurantColumn, restaurant, Limit, 5);
      NotPrefixAt(Opener(DishColumn), tail, 5);
    } else {
      assert tail == Limit;
      NotPrefixAt(Opener(DishColumn), tail, 1);
    }
  }

  /** The clauses that may follow the city clause never open with it. */
  lemma NotCityOpener(restaurant: string)
    ensures !(Opener(CityColumn) <= OptionalClause(RestaurantColumn, restaurant) + Limit)
  {
    var tail := OptionalClause(RestaurantColumn, restaurant) + Limit;
    if Provided(restaurant) {
      ClauseStarts(RestaurantColumn, restaurant, Limit, 5);
      NotPrefixAt(Opener(CityColumn), tail, 5);
    } else {
      assert tail == Limit;
      NotPrefixAt(Opener(CityColumn), tail, 1);
    }
  }

  lemma NotRestaurantOpener()
    ensures !(Opener(RestaurantColumn) <= Limit)
  {
    NotPrefixAt(Opener(RestaurantColumn), Limit, 1);
  }

  /** The filter clauses followed by the limit read back as the terms they came from. */
  lemma {:induction false} ParseFiltersOfFilters(c: Criteria)
    requires CriteriaQuoteFree(c)
    ensures ParseFilters(Filters(c) + Limit) == Some(c)
  {
    var od := OptionalClause(DishColumn, c.dish);
    var oc := OptionalClause(CityColumn, c.city);
    var or := OptionalClause(RestaurantColumn, c.restaurant);
    var t2 := or + Limit;
    var t1 := oc + t2;
    var s := od + t1;
    Concat4(od, oc, or, Limit);
    assert Filters(c) + Limit == s;
    NotDishOpener(c.city, c.restaurant);
    ParseOptionalClause(DishColumn, c.dish, t1);
    assert ParseClause(DishColumn, s) == Some(Parsed(c.dish, t1));
    NotCityOpener(c.restaurant);
    ParseOptionalClause(CityColumn, c.city, t2);
    assert ParseClause(CityColumn, t1) == Some(Parsed(c.city, t2));
    NotRestaurantOpener();
    ParseOptionalClause(RestaurantColumn, c.restaurant, Limit);
    assert ParseClause(RestaurantColumn, t2) == Some(Parsed(c.restaurant, Limit));
  }

  /**
   * Round trip: a query built from quote-free terms reads back as exactly
   * those terms, so every provided term is embedded verbatim, under its own
   * column, in the order dish, city, restaurant, and no absent one leaves a clause.
   */
  lemma {:induction false} ParseQueryText(c: Criteria)
    requires CriteriaQuoteFree(c)
    ensures ParseQuery(QueryText(c)) == Some(c)
  {
    var q := QueryText(c);
    assert q == Base + (Filters(c) + Limit);
    assert q[|Base|..] == Filters(c) + Limit;
    ParseFiltersOfFilters(c);
  }

  lemma QuoteFreePrefix(x: string, n: nat)
    requires QuoteFree(x) && n <= |x|
    ensures QuoteFree(x[..n])
  {
    assert forall i :: 0 <= i < n ==> x[..n][i] == x[i];
  }

  lemma SplitAround(x: string, k: nat)
    requires 1 <= k < |x|
    ensures x == x[..k - 1] + [x[k - 1], x[k]] + x[k + 1..]
  {
  }

  /** Whatever ReadClause reads is an optional clause followed by the rest. */
  lemma ReadClauseSound(open: string, s: string)
    requires ReadClause(open, s).Some?
    ensures QuoteFree(ReadClause(open, s).value.term)
    ensures var p := ReadClause(open, s).value;
            s == (if Provided(p.term) then open + p.term + "%'" else "") + p.rest
  {
    if open <= s {
      var body := s[|open|..];
      PrefixSplit(open, s);
      var k := FirstQuote(body).value;
      assert k >= 2 && body[k - 1] == '%' && body[k] == '\'';
      var term := body[..k - 1];
      assert ReadClause(open, s) == Some(Parsed(term, body[k + 1..]));
      assert term == body[..k][..k - 1];
      QuoteFreePrefix(body[..k], k - 1);
      SplitAround(body, k);
      assert [body[k - 1], body[k]] == "%'";
    }
  }

  /** Whatever ParseClause reads is a well-formed optional clause followed by the rest. */
  lemma ParseClauseSound(column: string, s: string)
    requires ParseClause(column, s).Some?
    ensures QuoteFree(ParseClause(column, s).value.term)
    ensures s == OptionalClause(column, ParseClause(column, s).value.term) + ParseClause(column, s).value.rest
  {
    ReadClauseSound(Opener(column), s);
  }

  lemma PrefixSplit(p: string, q: string)
    requires p <= q
    ensures q == p + q[|p|..]
  {
  }

  lemma Concat3(a: string, b: string, c: string)
    ensures a + b + c == a + (b + c)
  {
  }

  lemma Concat4(a: string, b: string, c: string, d: string)
    ensures a + (b + (c + d)) == a + b + c + d
  {
  }

  /** Whatever ParseFilters accepts is the filters of the quote-free terms it returns, then the limit. */
  lemma {:induction false} ParsedFiltersAreFilters(s: string)
    requires ParseFilters(s).Some?
    ensures CriteriaQuoteFree(ParseFilters(s).value)
    ensures s == Filters(ParseFilters(s).value) + Limit
  {
    var d := ParseClause(DishColumn, s).value;
    var c := ParseClause(CityColumn, d.rest).value;
    var r := ParseClause(RestaurantColumn, c.rest).value;
    assert ParseFilters(s) == Some(Criteria(d.term, c.term, r.term)) && r.rest == Limit;
    ParseClauseSound(DishColumn, s);
    ParseClauseSound(CityColumn, d.rest);
    ParseClauseSound(RestaurantColumn, c.rest);
    Concat4(OptionalClause(DishColumn, d.term), OptionalClause(CityColumn, c.term),
            OptionalClause(RestaurantColumn, r.term), Limit);
  }

  /**
   * The converse of the round trip: anything ParseQuery accepts is exactly
   * the query text of the quote-free terms it returns.
   */
  lemma {:induction false} ParsedQueryIsQueryText(q: string)
    requires ParseQuery(q).Some?
    ensures CriteriaQuoteFree(ParseQuery(q).value)
    ensures QueryText(ParseQuery(q).value) == q
  {
    var s := q[|Base|..];
    assert Base <= q && ParseQuery(q) == ParseFilters(s);
    PrefixSplit(Base, q);
    ParsedFiltersAreFilters(s);
    var c := ParseQuery(q).value;
    Concat3(Base, Filters(c), Limit);
  }

  /** Both directions together: ParseQuery inverts QueryText exactly on quote-free terms. */
  lemma ParseQueryIff(q: string, c: Criteria)
    ensures ParseQuery(q) == Some(c) <==> (CriteriaQuoteFree(c) && QueryText(c) == q)
  {
    if ParseQuery(q) == Some(c) {
      ParsedQueryIsQueryText(q);
    }
    if CriteriaQuoteFree(c) && QueryText(c) == q {
      ParseQueryText(c);
    }
  }

  /**
   * Because terms are spliced in unescaped, a quote in one field can forge
   * the clause of another: a dish term that closes its own pattern and opens
   * a city clause sends the same query as the honest dish-and-city search.
   */
  lemma QueryTextNotInjective(dish: string, city: string)
    requires Provided(dish) && Provided(city)
    ensures Criteria(dish + "%'" + Opener(CityColumn) + city, "", "") != Criteria(dish, city, "")
    ensures QueryText(Criteria(dish + "%'" + Opener(CityColumn) + city, "", ""))
         == QueryText(Criteria(dish, city, ""))
  {
    var forged := dish + "%'" + Opener(CityColumn) + city;
    var x, y := Clause(DishColumn, dish), Clause(CityColumn, city);
    assert Clause(DishColumn, forged) == x + y;
    assert Filters(Criteria(forged, "", "")) == x + y;
    assert Filters(Criteria(dish, city, "")) == x + y;
  }
}
