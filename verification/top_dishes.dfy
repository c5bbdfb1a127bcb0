/**
 * `useTopDishes`: the three fetched bucket arrays (appetizers, mains,
 * desserts, each rows of `dishes` joined with their restaurant) become
 * display records, and the hook's result is tagged "multiple". The store
 * calls themselves are inputs here.
 */
module TopDishes {
  import opened Wrappers

  /** The joined `restaurants (name, city)` object; either column may be null. */
  datatype Joined = Joined(name: Option<string>, city: Option<string>)

  /** One fetched row; nullable columns are options, and the join may be missing. */
  datatype Row = Row(
    id: string,
    name: string,
    dishType: string,
    restaurantId: string,
    upvotes: Option<int>,
    downvotes: Option<int>,
    restaurants: Option<Joined>)

  /** One display record. */
  datatype DishRecord = DishRecord(
    id: string,
    dish: string,
    dishType: string,
    restaurant: Option<string>,
    city: Option<string>,
    upvotes: int,
    downvotes: int,
    score: int)

  /** The hook's `{ type: "multiple", data: { appetizers, mains, desserts } }`. */
  datatype TopDishes = TopDishes(kind: string, appetizers: seq<DishRecord>, mains: seq<DishRecord>,
                                 desserts: seq<DishRecord>)

  const MaxPerBucket: nat := 10

  /** `count || 0` on a nullable integer column: null and 0 both give 0. */
  function CountOrZero(count: Option<int>): (n: int)
    ensures count.None? ==> n == 0
    ensures count.Some? ==> n == count.value
  {
    count.GetOr(0)
  }

  /** A record's score is its upvotes minus its downvotes. */
  predicate ScoreConsistent(r: DishRecord) { r.score == r.upvotes - r.downvotes }

  /** The record one row maps to, field by field. */
  predicate Represents(r: DishRecord, row: Row) {
    && r.id == row.id
    && r.dish == row.name
    && r.dishType == row.dishType
    && r.restaurant == (if row.restaurants.Some? then row.restaurants.value.name else None)
    && r.city == (if row.restaurants.Some? then row.restaurants.value.city else None)
    && r.upvotes == CountOrZero(row.upvotes)
    && r.downvotes == CountOrZero(row.downvotes)
    && ScoreConsistent(r)
  }

  /** The `.map` callback applied to each fetched row. */
  function Normalize(row: Row): (r: DishRecord)
    ensures Represents(r, row)
  {
    var up := row.upvotes.GetOr(0);
    var down := row.downvotes.GetOr(0);
    var joined := row.restaurants.GetOr(Joined(None, None));
    DishRecord(row.id, row.name, row.dishType, joined.name, joined.city, up, down, up - down)
  }

  /** `rows.map(...)`: one record per row, in the same order. */
  function NormalizeAll(rows: seq<Row>): (b: seq<DishRecord>)
    ensures |b| == |rows|
    ensures forall i :: 0 <= i < |b| ==> Represents(b[i], rows[i])
  {
    if rows == [] then []
    else [Normalize(rows[0])] + NormalizeAll(rows[1..])
  }

  /** `fetched?.map(...) || []`: a missing array gives an empty bucket. */
  function Bucket(fetched: Option<seq<Row>>): (b: seq<DishRecord>)
    ensures fetched.None? ==> b == []
    ensures fetched.Some? ==> |b| == |fetched.value|
    ensures fetched.Some? ==> forall i :: 0 <= i < |b| ==> Represents(b[i], fetched.value[i])
  {
    match fetched
    case None => []
    case Some(rows) => NormalizeAll(rows)
  }

  /** The processed result of one fetch of the three buckets. */
  function Process(appetizers: Option<seq<Row>>, mains: Option<seq<Row>>, desserts: Option<seq<Row>>)
    : (t: TopDishes)
    ensures t.kind == "multiple"
    ensures t.appetizers == Bucket(appetizers)
    ensures t.mains == Bucket(mains)
    ensures t.desserts == Bucket(desserts)
  {
    TopDishes("multiple", Bucket(appetizers), Bucket(mains), Bucket(desserts))
  }

  /** Scores can be negative. */
  lemma NegativeScore()
    ensures Normalize(Row("1", "Calamari", "appetizer", "7", Some(1), Some(4), None)).score == -3
    ensures Normalize(Row("2", "Ribeye", "main", "8", None, Some(2), None)).score == -2
  {
  }

  // ---------------------------------------------------------------------------
  // The request each bucket is fetched with.
  // ---------------------------------------------------------------------------

  /**
   * Order of `upvotes` descending as the store sorts it: a null sorts
   * before every number (NULLS FIRST is the default for a descending sort).
   */
  predicate UpvotesNotBelow(a: Option<int>, b: Option<int>) {
    a.None? || (b.Some? && a.value >= b.value)
  }

  /** `.eq("type", dishType).order("upvotes", { ascending: false }).limit(10)`. */
  predicate AsRequested(rows: seq<Row>, dishType: string) {
    && |rows| <= MaxPerBucket
    && (forall i :: 0 <= i < |rows| ==> rows[i].dishType == dishType)
    && (forall i, j :: 0 <= i < j < |rows| ==> UpvotesNotBelow(rows[i].upvotes, rows[j].upvotes))
  }

  /**
   * If the store honours the request, the bucket keeps it: at most ten
   * records, all of the requested type, and from the first row with a
   * non-null upvote count onward the upvotes never increase.
   */
  lemma RequestKept(rows: seq<Row>, dishType: string)
    requires AsRequested(rows, dishType)
    ensures |Bucket(Some(rows))| <= MaxPerBucket
    ensures forall i :: 0 <= i < |rows| ==> Bucket(Some(rows))[i].dishType == dishType
    ensures forall i, j :: 0 <= i < j < |rows| && rows[i].upvotes.Some? ==>
              Bucket(Some(rows))[i].upvotes >= Bucket(Some(rows))[j].upvotes
  {
    var b := Bucket(Some(rows));
    forall i, j | 0 <= i < j < |rows| && rows[i].upvotes.Some?
      ensures b[i].upvotes >= b[j].upvotes
    {
      assert UpvotesNotBelow(rows[i].upvotes, rows[j].upvotes);
    }
  }

  /** With no null upvote counts, a bucket fetched as requested is sorted by upvotes, descending. */
  lemma RequestKeptSorted(rows: seq<Row>, dishType: string)
    requires AsRequested(rows, dishType)
    requires forall i :: 0 <= i < |rows| ==> rows[i].upvotes.Some?
    ensures forall i, j :: 0 <= i < j < |rows| ==>
              Bucket(Some(rows))[i].upvotes >= Bucket(Some(rows))[j].upvotes
  {
    RequestKept(rows, dishType);
  }

  /** A null upvote count, sorted first by the store, shows as 0 ahead of larger counts. */
  lemma NullUpvotesBreakOrder()
    ensures AsRequested([Row("1", "Soup", "appetizer", "7", None, None, None),
                         Row("2", "Wings", "appetizer", "7", Some(3), None, None)], "appetizer")
    ensures Bucket(Some([Row("1", "Soup", "appetizer", "7", None, None, None),
                         Row("2", "Wings", "appetizer", "7", Some(3), None, None)]))[0].upvotes == 0
    ensures Bucket(Some([Row("1", "Soup", "appetizer", "7", None, None, None),
                         Row("2", "Wings", "appetizer", "7", Some(3), None, None)]))[1].upvotes == 3
  {
  }
}
