/** What the property search promises about the query it hands to the
    database: which filters it applies and in what order, that the `$n`
    placeholders of the text number the bound values one to one, that the
    limit comes last, and that option values reach the database only as bound
    values, never as part of the text. */
module QueryFacts {
  import opened Decimal
  import opened Js
  import opened SqlText
  import opened PropertyQuery

  // ---------------------------------------------------------------------------
  // Which filters a search applies.

  /** How many of the five options are truthy. */
  function TruthyCount(o: Options): nat {
    (if Truthy(o.ownerId) then 1 else 0)
    + (if Truthy(o.city) then 1 else 0)
    + (if Truthy(o.minimumPricePerNight) then 1 else 0)
    + (if Truthy(o.maximumPricePerNight) then 1 else 0)
    + (if Truthy(o.minimumRating) then 1 else 0)
  }

  /** Filters listed strictly in the order their options are tested. */
  predicate InTestOrder(s: seq<Filter>) {
    forall i, j :: 0 <= i < j < |s| ==> Rank(s[i]) < Rank(s[j])
  }

  predicate RanksBelow(s: seq<Filter>, r: nat) {
    forall i :: 0 <= i < |s| ==> Rank(s[i]) < r
  }

  lemma {:induction false} AppendApplied(o: Options, s: seq<Filter>, f: Filter)
    requires InTestOrder(s) && RanksBelow(s, Rank(f))
    ensures InTestOrder(s + Applied(o, f)) && RanksBelow(s + Applied(o, f), Rank(f) + 1)
  {
  }

  /** A search applies exactly the filters whose option is truthy. */
  lemma ActiveMembers(o: Options)
    ensures forall f :: f in Active(o) <==> Truthy(OptionFor(o, f))
  {
    forall f ensures f in Active(o) <==> Truthy(OptionFor(o, f)) {
      assert f in Applied(o, f) <==> Truthy(OptionFor(o, f));
      assert forall g :: g in Active(o) <==> (g in Applied(o, OwnerId) || g in Applied(o, City)
        || g in Applied(o, MinimumPrice) || g in Applied(o, MaximumPrice) || g in Applied(o, MinimumRating));
    }
  }

  /** The applied filters come in the order the options are tested, so none
      is applied twice. */
  lemma ActiveInTestOrder(o: Options)
    ensures InTestOrder(Active(o))
  {
    var s := Applied(o, OwnerId);
    AppendApplied(o, [], OwnerId);
    assert [] + s == s;
    AppendApplied(o, s, City);
    s := s + Applied(o, City);
    AppendApplied(o, s, MinimumPrice);
    s := s + Applied(o, MinimumPrice);
    AppendApplied(o, s, MaximumPrice);
    s := s + Applied(o, MaximumPrice);
    AppendApplied(o, s, MinimumRating);
  }

  lemma ActiveCount(o: Options)
    ensures |Active(o)| == TruthyCount(o)
  {
  }

  // ---------------------------------------------------------------------------
  // Values and predicates, position by position.

  /** The i-th bound value is the value of the i-th applied filter. */
  lemma {:induction false} BoundValuesAt(o: Options, active: seq<Filter>, i: nat)
    requires i < |active|
    ensures BoundValues(o, active)[i] == BoundValue(o, active[i])
    decreases |active|
  {
    var init := active[..|active| - 1];
    if i < |init| {
      BoundValuesAt(o, init, i);
      assert active[i] == init[i];
    }
  }

  /** The i-th predicate is that of the i-th applied filter, naming
      parameter i + 1. */
  lemma {:induction false} FragmentsAt(active: seq<Filter>, i: nat)
    requires i < |active|
    ensures Fragments(active)[i] == Fragment(active[i], i + 1)
    decreases |active|
  {
    var init := active[..|active| - 1];
    if i < |init| {
      FragmentsAt(init, i);
      assert active[i] == init[i];
    }
  }

  // ---------------------------------------------------------------------------
  // The placeholders of the text.

  /** The placeholder numbers 1, 2, ..., n. */
  function Ascending(n: nat): (r: seq<nat>)
    ensures |r| == n
    ensures forall i :: 0 <= i < n ==> r[i] == i + 1
  {
    if n == 0 then [] else Ascending(n - 1) + [n]
  }

  lemma TailStart(n: nat)
    ensures |Tail(n)| > 6 && Tail(n)[0] == '\n'
  {
    assert GroupPart[0] == '\n';
  }

  lemma {:induction false} JoinSnoc(parts: seq<string>, p: string, sep: string)
    requires parts != []
    ensures Join(parts + [p], sep) == Join(parts, sep) + (sep + p)
    decreases |parts|
  {
    if |parts| == 1 {
      assert (parts + [p])[1..] == [p];
    } else {
      assert (parts + [p])[1..] == parts[1..] + [p];
      JoinSnoc(parts[1..], p, sep);
      AppendAssoc(parts[0] + sep, Join(parts[1..], sep), sep + p);
    }
  }

  lemma AppendAssoc(a: string, b: string, c: string)
    ensures a + (b + c) == (a + b) + c
  {
  }

  /** A WHERE clause with a single predicate names parameter 1. */
  lemma WhereFirst(f: Filter)
    ensures Placeholders(WhereClause(Fragments([f]))) == [1]
  {
    var x := Fragment(f, 1);
    assert Fragments([f]) == [x];
    assert WhereClause([x]) == "WHERE " + x;
    KeywordsPlain();
    NoDollarPrefix("WHERE ", x);
  }

  /** One more predicate adds the next parameter number to the WHERE clause. */
  lemma WhereNext(init: seq<Filter>, f: Filter)
    requires init != []
    ensures Placeholders(WhereClause(Fragments(init + [f])))
         == Placeholders(WhereClause(Fragments(init))) + [|init| + 1]
  {
    var x := Fragment(f, |init| + 1);
    var parts := Fragments(init);
    FragmentsSnoc(init, f);
    assert Fragments(init + [f]) == parts + [x];
    JoinSnoc(parts, x, " AND ");
    AppendAssoc("WHERE ", Join(parts, " AND "), " AND " + x);
    assert WhereClause(parts + [x]) == WhereClause(parts) + (" AND " + x);
    assert NotDigitStart(" AND " + x);
    PlaceholdersAppend(WhereClause(parts), " AND " + x);
    KeywordsPlain();
    NoDollarPrefix(" AND ", x);
  }

  /** The WHERE clause names parameters 1 to n, in that order, for n applied
      filters. */
  lemma {:induction false} WherePlaceholders(active: seq<Filter>)
    ensures Placeholders(WhereClause(Fragments(active))) == Ascending(|active|)
    decreases |active|
  {
    if active != [] {
      var init := active[..|active| - 1];
      var f := active[|active| - 1];
      assert active == init + [f];
      if init == [] {
        WhereFirst(f);
      } else {
        WherePlaceholders(init);
        WhereNext(init, f);
      }
    }
  }

  /** The text of a query with n filters holds the placeholders $1 to $n+1,
      in this order. */
  lemma QueryTextPlaceholders(active: seq<Filter>)
    ensures Placeholders(QueryText(active)) == Ascending(|active| + 1)
  {
    var n := |active| + 1;
    SelectClausePlain();
    TailStart(n);
    Surrounded(SelectClause, WhereClause(Fragments(active)), Tail(n));
    WherePlaceholders(active);
  }

  lemma PlaceholdersMatchParams(o: Options, limit: JsValue)
    ensures Placeholders(PropertiesQuery(o, limit).text) == Ascending(|PropertiesQuery(o, limit).params|)
  {
    QueryTextPlaceholders(Active(o));
  }

  /** A truthy option is bound as the k-th value, and the predicate that
      names parameter k is the one that tests that option. */
  lemma FilterBinding(o: Options, limit: JsValue, f: Filter)
    requires Truthy(OptionFor(o, f))
    ensures exists k :: (1 <= k < |PropertiesQuery(o, limit).params|
      && PropertiesQuery(o, limit).params[k - 1] == BoundValue(o, f)
      && Fragments(Active(o))[k - 1] == Fragment(f, k)
      && Placeholders(Fragments(Active(o))[k - 1]) == [k])
  {
    ActiveMembers(o);
    var active := Active(o);
    var i :| 0 <= i < |active| && active[i] == f;
    BoundValuesAt(o, active, i);
    FragmentsAt(active, i);
    var q := PropertiesQuery(o, limit);
    assert q.params[i] == BoundValue(o, f);
    assert 1 <= i + 1 < |q.params|;
  }

  // ---------------------------------------------------------------------------
  // The limit, and a search without filters.

  /** The limit is the last value, 10 when it is left out, and its placeholder
      is the last one of the text, naming the last parameter. */
  lemma LimitLast(o: Options, limit: JsValue)
    ensures var q := PropertiesQuery(o, limit);
      |q.params| == TruthyCount(o) + 1
      && q.params[|q.params| - 1] == (if limit.Undefined? then Num(10) else limit)
      && |Placeholders(q.text)| > 0 && Placeholders(q.text)[|Placeholders(q.text)| - 1] == |q.params|
  {
    ActiveCount(o);
    PlaceholdersMatchParams(o, limit);
  }

  /** Without a truthy option the query binds only the limit, and its text is
      the SELECT clause followed directly by the LIMIT clause. */
  lemma NoFilters(o: Options, limit: JsValue)
    requires TruthyCount(o) == 0
    ensures PropertiesQuery(o, limit).params == [LimitValue(limit)]
    ensures PropertiesQuery(o, limit).text == SelectClause + Tail(1)
  {
    ActiveCount(o);
    assert Active(o) == [];
    EmptyWhere();
  }

  /** The text carries `WHERE ` right after the JOIN clause. */
  predicate HasWhere(text: string) {
    |text| >= |SelectClause| + 6 && text[|SelectClause|..|SelectClause| + 6] == "WHERE "
  }

  lemma SliceAfter(a: string, b: string, c: string)
    ensures (a + (b + c))[|a|..|a| + |b|] == b
  {
    assert forall i :: 0 <= i < |b| ==> (a + (b + c))[|a|..|a| + |b|][i] == b[i];
  }

  /** Without filters the text has no WHERE clause. */
  lemma NoWhere()
    ensures !HasWhere(QueryText([]))
  {
    EmptyWhere();
    TailStart(1);
    NotWhereAt(SelectClause, Tail(1));
  }

  /** Without filters the text is the SELECT clause followed directly by
      the LIMIT clause. */
  lemma EmptyWhere()
    ensures QueryText([]) == SelectClause + Tail(1)
  {
    assert WhereClause(Fragments([])) == [];
    EmptyMiddle(SelectClause, Tail(1));
  }

  lemma EmptyMiddle(a: string, b: string)
    ensures a + [] + b == a + b
  {
  }

  lemma NotWhereAt(a: string, b: string)
    requires |b| >= 6 && b[0] == '\n'
    ensures |a + b| >= |a| + 6 && (a + b)[|a|..|a| + 6] != "WHERE "
  {
    assert (a + b)[|a|..|a| + 6][0] == b[0];
  }

  /** With a filter the text has a WHERE clause. */
  lemma SomeWhere(active: seq<Filter>)
    requires active != []
    ensures HasWhere(QueryText(active))
  {
    var rest := Join(Fragments(active), " AND ") + Tail(|active| + 1);
    AppendAssoc(SelectClause, "WHERE " + Join(Fragments(active), " AND "), Tail(|active| + 1));
    AppendAssoc("WHERE ", Join(Fragments(active), " AND "), Tail(|active| + 1));
    assert QueryText(active) == SelectClause + ("WHERE " + rest);
    SliceAfter(SelectClause, "WHERE ", rest);
  }

  /** The WHERE clause is present exactly when some filter applies. */
  lemma WhereIffActive(active: seq<Filter>)
    ensures HasWhere(QueryText(active)) <==> active != []
  {
    if active == [] {
      NoWhere();
    } else {
      SomeWhere(active);
    }
  }

  /** The WHERE clause is present exactly when some option is truthy. */
  lemma WhereIffFilters(o: Options, limit: JsValue)
    ensures HasWhere(PropertiesQuery(o, limit).text) <==> TruthyCount(o) > 0
  {
    ActiveCount(o);
    WhereIffActive(Active(o));
  }

  // ---------------------------------------------------------------------------
  // Option values never reach the text.

  /** Two searches whose options agree on which are truthy send the same text,
      whatever the option values and limits: values travel only as bound
      parameters. */
  lemma TextIgnoresValues(o1: Options, o2: Options, limit1: JsValue, limit2: JsValue)
    requires forall f :: Truthy(OptionFor(o1, f)) == Truthy(OptionFor(o2, f))
    ensures PropertiesQuery(o1, limit1).text == PropertiesQuery(o2, limit2).text
  {
    assert Applied(o1, OwnerId) == Applied(o2, OwnerId);
    assert Applied(o1, City) == Applied(o2, City);
    assert Applied(o1, MinimumPrice) == Applied(o2, MinimumPrice);
    assert Applied(o1, MaximumPrice) == Applied(o2, MaximumPrice);
    assert Applied(o1, MinimumRating) == Applied(o2, MinimumRating);
  }

  // ---------------------------------------------------------------------------
  // How each option is bound.

  /** The city is bound between two `%` wildcards, for a LIKE match anywhere
      in the city name. */
  lemma CityBoundAsPattern(o: Options)
    ensures var s := BoundValue(o, City).s;
      BoundValue(o, City).Text? && |s| >= 2 && s[0] == '%' && s[|s| - 1] == '%'
      && s[1..|s| - 1] == ToJsString(o.city)
  {
    var s := BoundValue(o, City).s;
    assert s == "%" + ToJsString(o.city) + "%";
    assert s[1..|s| - 1] == ToJsString(o.city);
  }

  /** A numeric price or rating is bound as its decimal text, which reads back
      as the same number. */
  lemma NumberBoundAsText(o: Options, f: Filter)
    requires f != OwnerId && f != City && OptionFor(o, f).Num?
    ensures BoundValue(o, f).Text?
    ensures IsIntText(BoundValue(o, f).s) && ParseInt(BoundValue(o, f).s) == OptionFor(o, f).n
  {
  }

  // ---------------------------------------------------------------------------
  // Three searches worked through.

  /** `{city: "Van"}` with limit 5. */
  lemma CitySearch()
    ensures PropertiesQuery(Options(Undefined, Text("Van"), Undefined, Undefined, Undefined), Num(5)).params
         == [Text("%Van%"), Num(5)]
  {
    var o := Options(Undefined, Text("Van"), Undefined, Undefined, Undefined);
    assert Active(o) == [City];
    assert [City][..0] == [];
    assert "%" + "Van" + "%" == "%Van%";
  }

  /** `{minimum_price_per_night: 50, maximum_price_per_night: 150}` with no
      limit: the prices are bound as text. */
  lemma PriceSearch()
    ensures PropertiesQuery(Options(Undefined, Undefined, Num(50), Num(150), Undefined), Undefined).params
         == [Text("50"), Text("150"), Num(10)]
  {
    var o := Options(Undefined, Undefined, Num(50), Num(150), Undefined);
    assert Active(o) == [MinimumPrice, MaximumPrice];
    assert [MinimumPrice, MaximumPrice][..1] == [MinimumPrice];
    PriceTexts();
  }

  lemma PriceTexts()
    ensures ToJsString(Num(50)) == "50" && ToJsString(Num(150)) == "150"
  {
    assert NatToString(50) == "50";
    assert NatToString(150) == "150";
  }

  /** No options and limit 10. */
  lemma EmptySearch()
    ensures var q := PropertiesQuery(Options(Undefined, Undefined, Undefined, Undefined, Undefined), Num(10));
      q.params == [Num(10)] && !HasWhere(q.text)
  {
    var o := Options(Undefined, Undefined, Undefined, Undefined, Undefined);
    NoFilters(o, Num(10));
    WhereIffFilters(o, Num(10));
  }
}
