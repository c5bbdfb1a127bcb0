/**
 * The lookup tables the search components read (the shape of the sample
 * data), and the lookup they perform: index a table by the lower-cased
 * input and fall back to empty buckets when the key is missing.
 */
module Tables {
  import opened Chars

  /** One displayed entry: a dish and the restaurant serving it. */
  datatype Item = Item(dish: string, restaurant: string)

  /** The three-column shape used for city and restaurant results. */
  datatype Courses = Courses(appetizers: seq<Item>, mains: seq<Item>, desserts: seq<Item>)

  /** The two-column shape used for dish results. */
  datatype Ranking = Ranking(top: seq<Item>, bottom: seq<Item>)

  /** Tables keyed by lower-case city, restaurant and dish name. */
  datatype SampleData = SampleData(
    cities: map<string, Courses>,
    restaurants: map<string, Courses>,
    dishes: map<string, Ranking>)

  const NoCourses: Courses := Courses([], [], [])
  const NoRanking: Ranking := Ranking([], [])

  /**
   * `table[name.toLowerCase()] || default`, reading only the table's own
   * keys: the entry for the lower-cased name, or `default` when there is none.
   */
  function LookupIgnoringCase<V>(table: map<string, V>, name: string, default: V): (v: V)
    ensures Lower(name) in table ==> v == table[Lower(name)]
    ensures Lower(name) !in table ==> v == default
  {
    var key := Lower(name);
    if key in table then table[key] else default
  }

  /** Names that differ only in letter case look up the same value. */
  lemma LookupIgnoresCase<V>(table: map<string, V>, a: string, b: string, default: V)
    requires SameIgnoringCase(a, b)
    ensures LookupIgnoringCase(table, a, default) == LookupIgnoringCase(table, b, default)
  {
    LowerEqualIff(a, b);
  }

  // ---------------------------------------------------------------------------
  // The lookup as JavaScript performs it on a plain object.
  // ---------------------------------------------------------------------------

  /** The property names every plain JavaScript object inherits from `Object.prototype`. */
  const ObjectPrototypeMembers: set<string> := {
    "constructor", "__proto__", "hasOwnProperty", "isPrototypeOf",
    "propertyIsEnumerable", "toLocaleString", "toString", "valueOf",
    "__defineGetter__", "__defineSetter__", "__lookupGetter__", "__lookupSetter__"
  }

  /** What `object[key]` evaluates to: an own property, an inherited one, or `undefined`. */
  datatype JsValue<V> = Own(value: V) | Inherited(name: string) | Undefined

  /** `table[key]` on a plain object literal. */
  function JsIndex<V>(table: map<string, V>, key: string): (r: JsValue<V>)
    ensures r.Undefined? <==> key !in table && key !in ObjectPrototypeMembers
  {
    if key in table then Own(table[key])
    else if key in ObjectPrototypeMembers then Inherited(key)
    else Undefined
  }

  /** `v || default`: `undefined` is falsy, while objects and functions are truthy. */
  function JsOr<V>(v: JsValue<V>, default: V): (r: JsValue<V>)
    ensures !r.Undefined?
  {
    if v.Undefined? then Own(default) else v
  }

  /** `table[name.toLowerCase()] || default` exactly as the components write it. */
  function LookupAsWritten<V(==)>(table: map<string, V>, name: string, default: V): (r: JsValue<V>)
    ensures r.Own? ==> r.value == default || r.value in table.Values
  {
    JsOr(JsIndex(table, Lower(name)), default)
  }

  /** Away from the inherited names, the lookup as written and the own-key lookup agree. */
  lemma LookupAsWrittenAgrees<V>(table: map<string, V>, name: string, default: V)
    requires Lower(name) !in ObjectPrototypeMembers
    ensures LookupAsWritten(table, name, default) == Own(LookupIgnoringCase(table, name, default))
  {
  }

  /**
   * A name that lower-cases to an inherited member the table lacks escapes
   * the default: the lookup yields a function or prototype object, not buckets.
   */
  lemma PrototypeKeyEscapesDefault<V>(table: map<string, V>, name: string, default: V)
    requires Lower(name) in ObjectPrototypeMembers && Lower(name) !in table
    ensures LookupAsWritten(table, name, default) == Inherited(Lower(name))
  {
  }

  lemma LowerConstructor()
    ensures Lower("Constructor") == "constructor"
  {
    assert forall i :: 0 <= i < 11 ==> Lower("Constructor")[i] == "constructor"[i];
  }

  /** Typing "Constructor" into any search box of a table without that key escapes the default. */
  lemma ConstructorEscapesDefault<V>(table: map<string, V>, default: V)
    requires "constructor" !in table
    ensures LookupAsWritten(table, "Constructor", default) == Inherited("constructor")
    ensures LookupIgnoringCase(table, "Constructor", default) == default
  {
    LowerConstructor();
  }
}
