/** The property search of `getAllProperties` up to the point where the query
    is handed to the database: the SQL text and the list of bound values. */
module PropertyQuery {
  import opened Decimal
  import opened Js
  import opened SqlText

  /** The search options; an option the caller leaves out is `Undefined`. */
  datatype Options = Options(
    ownerId: JsValue,
    city: JsValue,
    minimumPricePerNight: JsValue,
    maximumPricePerNight: JsValue,
    minimumRating: JsValue)

  /** The five filters, one per option. */
  datatype Filter = OwnerId | City | MinimumPrice | MaximumPrice | MinimumRating

  /** Position of a filter in the order the options are tested. */
  function Rank(f: Filter): nat {
    match f
    case OwnerId => 0
    case City => 1
    case MinimumPrice => 2
    case MaximumPrice => 3
    case MinimumRating => 4
  }

  function OptionFor(o: Options, f: Filter): JsValue {
    match f
    case OwnerId => o.ownerId
    case City => o.city
    case MinimumPrice => o.minimumPricePerNight
    case MaximumPrice => o.maximumPricePerNight
    case MinimumRating => o.minimumRating
  }

  /** The value bound for a filter: the owner id as given, the city wrapped in
      `%` wildcards, prices and rating converted to text. */
  function BoundValue(o: Options, f: Filter): (r: JsValue)
    ensures f == OwnerId ==> r == OptionFor(o, f)
    ensures f != OwnerId ==> r.Text?
    ensures f in {MinimumPrice, MaximumPrice, MinimumRating} ==> r.s == ToJsString(OptionFor(o, f))
  {
    match f
    case OwnerId => o.ownerId
    case City => Text("%" + ToJsString(o.city) + "%")
    case MinimumPrice => Text(ToJsString(o.minimumPricePerNight))
    case MaximumPrice => Text(ToJsString(o.maximumPricePerNight))
    case MinimumRating => Text(ToJsString(o.minimumRating))
  }

  /** The predicate of a filter up to its placeholder, which holds no `$` of
      its own. */
  function Condition(f: Filter): (r: string)
    ensures '$' !in r
  {
    match f
    case OwnerId => "owner_id = "
    case City => "city LIKE "
    case MinimumPrice => "properties.cost_per_night/100 >= "
    case MaximumPrice => "properties.cost_per_night/100 <= "
    case MinimumRating => "property_reviews.rating >= "
  }

  /** The predicate of a filter whose value is bound as parameter `k`: it
      holds exactly one placeholder, the number `k`. */
  function Fragment(f: Filter, k: nat): (r: string)
    ensures Placeholders(r) == [k]
  {
    PlaceholderAfter(Condition(f), k, "");
    assert Condition(f) + "$" + NatToString(k) + "" == Condition(f) + "$" + NatToString(k);
    Condition(f) + "$" + NatToString(k)
  }

  /** The filter `f` if its option is truthy, else nothing. */
  function Applied(o: Options, f: Filter): seq<Filter> {
    if Truthy(OptionFor(o, f)) then [f] else []
  }

  /** The filters a search applies: those whose option is truthy, tested in a
      fixed order. */
  function Active(o: Options): (r: seq<Filter>)
    ensures |r| <= 5
    ensures forall i :: 0 <= i < |r| ==> Truthy(OptionFor(o, r[i]))
  {
    Applied(o, OwnerId) + Applied(o, City) + Applied(o, MinimumPrice)
    + Applied(o, MaximumPrice) + Applied(o, MinimumRating)
  }

  /** The values bound for the active filters, one each, in the same order. */
  function BoundValues(o: Options, active: seq<Filter>): (r: seq<JsValue>)
    ensures |r| == |active|
    decreases |active|
  {
    if active == [] then []
    else BoundValues(o, active[..|active| - 1]) + [BoundValue(o, active[|active| - 1])]
  }

  /** The predicates of the active filters, the i-th (from 0) numbered i + 1. */
  function Fragments(active: seq<Filter>): (r: seq<string>)
    ensures |r| == |active|
    decreases |active|
  {
    if active == [] then []
    else Fragments(active[..|active| - 1]) + [Fragment(active[|active| - 1], |active|)]
  }

  /** `Array.prototype.join`: the parts in order with `sep` between
      neighbours, so the text starts with the first part and ends with the
      last. */
  function Join(parts: seq<string>, sep: string): (r: string)
    ensures parts == [] ==> r == ""
    ensures parts != [] ==> parts[0] <= r
    ensures parts != [] ==> |parts[|parts| - 1]| <= |r| && r[|r| - |parts[|parts| - 1]|..] == parts[|parts| - 1]
    decreases |parts|
  {
    if parts == [] then ""
    else if |parts| == 1 then parts[0]
    else parts[0] + sep + Join(parts[1..], sep)
  }

  /** The SELECT, FROM and JOIN clauses, written in pieces short enough for
      the verifier to inspect character by character. */
  const SelectPart: string := "\n  SELECT properties.*, "
  const AveragePart: string := "avg(property_reviews.rating)"
  const AliasPart: string := " as average_rating\n  "
  const FromPart: string := "FROM properties\n  "
  const JoinPart: string := "JOIN property_reviews "
  const OnPart: string := "ON properties.id = property_id\n  "
  const SelectClause: string := SelectPart + AveragePart + AliasPart + FromPart + JoinPart + OnPart

  // ---------------------------------------------------------------------------
  // None of the fixed text holds a `$`.

  lemma NoDollarConcat(a: string, b: string)
    requires '$' !in a && '$' !in b
    ensures '$' !in a + b
  {
  }

  lemma SelectPartPlain() ensures '$' !in SelectPart {}
  lemma AveragePartPlain() ensures '$' !in AveragePart {}
  lemma AliasPartPlain() ensures '$' !in AliasPart {}
  lemma FromPartPlain() ensures '$' !in FromPart {}
  lemma JoinPartPlain() ensures '$' !in JoinPart {}
  lemma OnPartPlain() ensures '$' !in OnPart {}
  lemma GroupPartPlain() ensures '$' !in GroupPart {}
  lemma OrderPartPlain() ensures '$' !in OrderPart {}
  lemma LimitPartPlain() ensures '$' !in LimitPart {}
  lemma TerminatorPlain() ensures '$' !in Terminator {}
  lemma KeywordsPlain() ensures '$' !in "WHERE " && '$' !in " AND " {}

  lemma SelectClausePlain()
    ensures '$' !in SelectClause
  {
    SelectPartPlain();
    AveragePartPlain();
    AliasPartPlain();
    FromPartPlain();
    JoinPartPlain();
    OnPartPlain();
    NoDollarConcat(SelectPart, AveragePart);
    NoDollarConcat(SelectPart + AveragePart, AliasPart);
    NoDollarConcat(SelectPart + AveragePart + AliasPart, FromPart);
    NoDollarConcat(SelectPart + AveragePart + AliasPart + FromPart, JoinPart);
    NoDollarConcat(SelectPart + AveragePart + AliasPart + FromPart + JoinPart, OnPart);
  }

  function WhereClause(fragments: seq<string>): string {
    if fragments == [] then "" else "WHERE " + Join(fragments, " AND ")
  }

  /** The grouping and ordering clauses and the LIMIT keyword. */
  const GroupPart: string := "\n  GROUP BY properties.id"
  const OrderPart: string := "\n  ORDER BY cost_per_night"
  const LimitPart: string := "\n  LIMIT "
  const Terminator: string := ";\n  "

  /** The grouping, ordering and LIMIT clauses, the limit bound as parameter
      `n`: they hold exactly one placeholder, the number `n`. */
  function Tail(n: nat): (r: string)
    ensures Placeholders(r) == [n]
  {
    GroupPartPlain();
    OrderPartPlain();
    LimitPartPlain();
    TerminatorPlain();
    NoDollarConcat(GroupPart, OrderPart);
    NoDollarConcat(GroupPart + OrderPart, LimitPart);
    PlaceholderAfter(GroupPart + OrderPart + LimitPart, n, Terminator);
    NoDollarPrefix(Terminator, "");
    assert Terminator + "" == Terminator;
    GroupPart + OrderPart + LimitPart + "$" + NatToString(n) + Terminator
  }

  /** The `limit` parameter after its default of 10 for `undefined`. */
  function LimitValue(limit: JsValue): (r: JsValue)
    ensures !r.Undefined?
    ensures !limit.Undefined? ==> r == limit
    ensures limit.Undefined? ==> r == Num(10)
  {
    if limit.Undefined? then Num(10) else limit
  }

  datatype Query = Query(text: string, params: seq<JsValue>)

  /** The text of a query applying the filters `active`: it depends on which
      filters apply, never on the values they test. */
  function QueryText(active: seq<Filter>): string {
    SelectClause + WhereClause(Fragments(active)) + Tail(|active| + 1)
  }

  /** The query a search sends to the database. */
  function PropertiesQuery(o: Options, limit: JsValue): (r: Query)
    ensures |r.params| == |Active(o)| + 1
    ensures r.params[|r.params| - 1] == LimitValue(limit)
  {
    var active := Active(o);
    Query(QueryText(active), BoundValues(o, active) + [LimitValue(limit)])
  }

  // ---------------------------------------------------------------------------
  // The builder as the source runs it: two lists grown in step, one text
  // extended piece by piece.

  /** The values bound so far and the predicates added so far are those of
      the filters in `active`. */
  ghost predicate Built(o: Options, active: seq<Filter>, params: seq<JsValue>, filters: seq<string>) {
    params == BoundValues(o, active) && filters == Fragments(active)
  }

  /** One `if (options.x) { queryParams.push(...); queryFilters.push(...) }`
      block: a truthy option binds its value as the next parameter and adds a
      predicate naming that parameter by its number. */
  method AddFilter(options: Options, f: Filter, queryParams: seq<JsValue>, queryFilters: seq<string>, ghost active: seq<Filter>)
    returns (params: seq<JsValue>, filters: seq<string>)
    requires Built(options, active, queryParams, queryFilters)
    ensures Built(options, active + Applied(options, f), params, filters)
  {
    params, filters := queryParams, queryFilters;
    if Truthy(OptionFor(options, f)) {
      params := params + [BoundValue(options, f)];
      filters := filters + [Condition(f) + "$" + NatToString(|params|)];
      ValuesSnoc(options, active, f);
      FragmentsSnoc(active, f);
    } else {
      assert active + Applied(options, f) == active;
    }
  }

  /** The five option tests, in the order the source makes them. */
  method AddFilters(options: Options) returns (queryParams: seq<JsValue>, queryFilters: seq<string>)
    ensures Built(options, Active(options), queryParams, queryFilters)
  {
    queryParams, queryFilters := AddFilter(options, OwnerId, [], [], []);
    assert [] + Applied(options, OwnerId) == Applied(options, OwnerId);
    ghost var active := Applied(options, OwnerId);
    queryParams, queryFilters := AddFilter(options, City, queryParams, queryFilters, active);
    active := active + Applied(options, City);
    queryParams, queryFilters := AddFilter(options, MinimumPrice, queryParams, queryFilters, active);
    active := active + Applied(options, MinimumPrice);
    queryParams, queryFilters := AddFilter(options, MaximumPrice, queryParams, queryFilters, active);
    active := active + Applied(options, MaximumPrice);
    queryParams, queryFilters := AddFilter(options, MinimumRating, queryParams, queryFilters, active);
  }

  method GetAllPropertiesQuery(options: Options, limit: JsValue) returns (queryString: string, queryParams: seq<JsValue>)
    ensures Query(queryString, queryParams) == PropertiesQuery(options, limit)
  {
    var limit := LimitValue(limit);
    queryString := SelectClause;
    var queryFilters;
    queryParams, queryFilters := AddFilters(options);

    if |queryFilters| > 0 {
      queryString := queryString + ("WHERE " + Join(queryFilters, " AND "));
    }
    assert queryString == SelectClause + WhereClause(queryFilters);

    queryParams := queryParams + [limit];
    queryString := queryString + Tail(|queryParams|);
  }

  /** One more applied filter adds its value after the values already bound. */
  lemma {:induction false} ValuesSnoc(o: Options, active: seq<Filter>, f: Filter)
    ensures BoundValues(o, active + [f]) == BoundValues(o, active) + [BoundValue(o, f)]
  {
    assert (active + [f])[..|active|] == active;
  }

  /** One more applied filter adds its predicate, numbered one past the values
      already bound. */
  lemma {:induction false} FragmentsSnoc(active: seq<Filter>, f: Filter)
    ensures Fragments(active + [f]) == Fragments(active) + [Fragment(f, |active| + 1)]
  {
    assert (active + [f])[..|active|] == active;
  }
}
