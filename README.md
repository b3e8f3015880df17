# LightBnB property search and property table, in Dafny

LightBnB is a small lodging-listing web application. Its data-access layer,
`server/database.js`, holds the one piece of real logic in the repository.
That piece is `getAllProperties`, which turns optional search options into a
parameterized PostgreSQL query. It builds the query text and the list of
values bound to its `$1`, `$2`, … placeholders and hands both to `pool.query`.
What it returns is a promise of the result rows.

The search works in five steps:

- It tests up to five options in a fixed order:
  - `owner_id`
  - `city`
  - `minimum_price_per_night`
  - `maximum_price_per_night`
  - `minimum_rating`
- For each truthy option it pushes a value onto `queryParams`.
- It also pushes a predicate that names that value by its position, `$${queryParams.length}`.
- It joins the predicates into a `WHERE` clause. That happens only when there is at least one.
- Last, it pushes the limit (default 10) and ends the text with `LIMIT $n`.

The same file's `addProperty` stores a property in an in-memory table that is
keyed by id.

The model is split into five modules:

- `Decimal` (decimal.dfy): whole numbers written the way JavaScript's `String(n)` writes integers of magnitude up to 2^53, and parsed back.
- `Js` (js.dfy): the JavaScript values that reach this layer, with JavaScript truthiness and template-literal conversion to text.
- `SqlText` (sqltext.dfy): PostgreSQL's numbered placeholders. `Placeholders(s)` lists the numbers of the `$n` tokens of a text in order. The lemmas say how this list behaves under concatenation.
- `PropertyQuery` (property_query.dfy): the query builder itself.
  - `PropertiesQuery` is the specification: the query as a function of the options and the limit.
  - `GetAllPropertiesQuery` is the builder as the source runs it. It keeps two growing lists and appends to the text. It is proved to produce exactly `PropertiesQuery`.
- `QueryFacts` (query_facts.dfy): what the search promises.
  - It applies exactly the truthy options, in test order.
  - The placeholders of the text are `$1 … $n`, in that order, for n bound values. Every placeholder names a value, and every value is named.
  - The predicate naming `$k` is the one that tests the option bound as value k.
  - The limit is the last value and owns the last placeholder.
  - `WHERE` is present exactly when some option is truthy.
  - The text depends only on which options are truthy, not on their values: values reach the database only as bound parameters.
- `PropertyStore` (property_store.dfy): `addProperty` as a method on a table object. It has a map field and updates the property object it is given in place.

Prices and rating are bound as text, not as numbers. Lines 129, 136 and 143 of
`server/database.js` push template literals such as
`` `${options.minimum_price_per_night}` ``. `PriceSearch` proves that prices 50
and 150 with no limit bind `["50", "150", 10]`. The limit is pushed as given.

## Model

| member | source | states |
|---|---|---|
| PropertyQuery.GetAllPropertiesQuery | LightBnB_WebApp-master/server/database.js:107-158 | the text and values the builder produces are exactly `PropertiesQuery(options, limit)` |
| PropertyQuery.AddFilter | LightBnB_WebApp-master/server/database.js:116-145 | one `if (options.x)` block: starting from the values and predicates of the filters `active`, it yields those of `active` plus this filter exactly when its option is truthy |
| PropertyQuery.AddFilters | LightBnB_WebApp-master/server/database.js:116-145 | the five blocks together leave the values and predicates of exactly the applied filters, in test order |
| PropertyQuery.ValuesSnoc | LightBnB_WebApp-master/server/database.js:117-117 | pushing the value of one more applied filter puts it after the values already bound |
| PropertyQuery.FragmentsSnoc | LightBnB_WebApp-master/server/database.js:118-118 | the predicate of one more applied filter comes last and is numbered one past the values already bound, the length after the push |
| PropertyQuery.PropertiesQuery | LightBnB_WebApp-master/server/database.js:107-158 | the query a search sends: one value per applied filter and then the limit, last |
| PropertyQuery.LimitValue | LightBnB_WebApp-master/server/database.js:107-107 | the limit is never `undefined`: 10 when left out, otherwise the value given |
| PropertyQuery.Active | LightBnB_WebApp-master/server/database.js:116-145 | the filters a search applies, at most five, each with a truthy option |
| PropertyQuery.BoundValue | LightBnB_WebApp-master/server/database.js:117-143 | the owner id is bound as given; every other option is bound as text, prices and rating as their template-literal text |
| PropertyQuery.Condition | LightBnB_WebApp-master/server/database.js:118-144 | the five predicates up to their placeholder, none holding a `$` of its own |
| PropertyQuery.Fragment | LightBnB_WebApp-master/server/database.js:118-144 | a predicate built for parameter `k` holds exactly one placeholder, `$k` |
| PropertyQuery.Join | LightBnB_WebApp-master/server/database.js:149-149 | `join(' AND ')`: empty for no predicates, else starting with the first and ending with the last |
| PropertyQuery.SelectClausePlain | LightBnB_WebApp-master/server/database.js:110-114 | the SELECT / FROM / JOIN text (`SelectClause`) holds no `$`, so it names no parameter |
| PropertyQuery.Tail | LightBnB_WebApp-master/server/database.js:154-158 | the GROUP BY / ORDER BY / LIMIT text holds exactly one placeholder, the limit's number |
| QueryFacts.TailStart | LightBnB_WebApp-master/server/database.js:154-155 | the text after the predicates is longer than `WHERE ` and starts with a line break, so no `WHERE` follows the JOIN clause without a predicate |
| Js.Truthy | LightBnB_WebApp-master/server/database.js:116-140 | the `if (options.x)` test: exactly `undefined`, `null`, `false`, `0` and `""` are falsy |
| Js.ToJsString | LightBnB_WebApp-master/server/database.js:122-143 | a template literal `${v}` keeps a string as it is and writes a number as text that reads back as that number |
| Decimal.NatToString | LightBnB_WebApp-master/server/database.js:118-118 | the text of `queryParams.length` after `$`: non-empty, digits only, no leading zero |
| Decimal.IntToString | LightBnB_WebApp-master/server/database.js:129-129 | the text of a whole number: non-empty, with a leading minus sign exactly when it is negative |
| PropertyStore.PropertyTable.constructor | LightBnB_WebApp-master/server/database.js:1-1 | the table starts as the map it is loaded with |
| PropertyQuery.BoundValues | LightBnB_WebApp-master/server/database.js:116-145 | one bound value per applied filter |
| PropertyQuery.Fragments | LightBnB_WebApp-master/server/database.js:116-145 | one predicate per applied filter |
| QueryFacts.ActiveMembers | LightBnB_WebApp-master/server/database.js:116-145 | a filter is applied if and only if its option is truthy |
| QueryFacts.ActiveInTestOrder | LightBnB_WebApp-master/server/database.js:116-145 | applied filters come strictly in the order owner, city, minimum price, maximum price, minimum rating, so none twice |
| QueryFacts.ActiveCount | LightBnB_WebApp-master/server/database.js:116-145 | as many filters apply as options are truthy |
| QueryFacts.BoundValuesAt | LightBnB_WebApp-master/server/database.js:116-145 | the i-th bound value is the value of the i-th applied filter |
| QueryFacts.FragmentsAt | LightBnB_WebApp-master/server/database.js:116-145 | the i-th predicate tests the i-th applied filter and names parameter i+1 |
| QueryFacts.WhereFirst | LightBnB_WebApp-master/server/database.js:148-149 | a WHERE clause of one predicate names parameter 1 |
| QueryFacts.WhereNext | LightBnB_WebApp-master/server/database.js:148-149 | joining one more predicate with ` AND ` appends the next parameter number |
| QueryFacts.WherePlaceholders | LightBnB_WebApp-master/server/database.js:148-149 | the WHERE clause of n filters names parameters 1..n in order |
| QueryFacts.QueryTextPlaceholders | LightBnB_WebApp-master/server/database.js:110-158 | the whole text of a query with n filters holds placeholders 1..n+1 in order |
| QueryFacts.PlaceholdersMatchParams | LightBnB_WebApp-master/server/database.js:107-158 | the placeholders of the text are exactly 1..number of values: each names a value, each value is named |
| QueryFacts.FilterBinding | LightBnB_WebApp-master/server/database.js:116-145 | a truthy option is bound as some value k, and the predicate naming `$k` is that option's predicate |
| QueryFacts.LimitLast | LightBnB_WebApp-master/server/database.js:153-157 | values number truthy options plus one, the last is the limit (10 when undefined), and the text's last placeholder names it |
| QueryFacts.NoFilters | LightBnB_WebApp-master/server/database.js:148-158 | without truthy options only the limit is bound and the text is the SELECT clause followed by the LIMIT clause |
| QueryFacts.EmptyWhere | LightBnB_WebApp-master/server/database.js:148-154 | with no filter nothing is inserted between the JOIN clause and GROUP BY |
| QueryFacts.NoWhere | LightBnB_WebApp-master/server/database.js:148-149 | with no filter the text has no `WHERE` |
| QueryFacts.SomeWhere | LightBnB_WebApp-master/server/database.js:148-149 | with a filter `WHERE ` follows the JOIN clause |
| QueryFacts.WhereIffActive | LightBnB_WebApp-master/server/database.js:148-149 | `WHERE` is present if and only if some filter applies |
| QueryFacts.WhereIffFilters | LightBnB_WebApp-master/server/database.js:148-149 | `WHERE` is present if and only if some option is truthy |
| QueryFacts.TextIgnoresValues | LightBnB_WebApp-master/server/database.js:110-158 | two searches with the same truthy options send the same text, whatever the values and limits: no option value is written into the SQL |
| QueryFacts.CityBoundAsPattern | LightBnB_WebApp-master/server/database.js:122-123 | the city is bound as `%city%`, the city text between two wildcards |
| QueryFacts.NumberBoundAsText | LightBnB_WebApp-master/server/database.js:126-144 | a numeric price or rating is bound as text that reads back as the same number |
| QueryFacts.CitySearch | LightBnB_WebApp-master/server/database.js:121-124 | `{city: "Van"}` with limit 5 binds `["%Van%", 5]` |
| QueryFacts.PriceSearch | LightBnB_WebApp-master/server/database.js:126-138 | prices 50 and 150 with no limit bind `["50", "150", 10]` |
| QueryFacts.EmptySearch | LightBnB_WebApp-master/server/database.js:148-158 | no options with limit 10 binds `[10]` and the text has no `WHERE` |
| SqlText.PlaceholdersAppend | LightBnB_WebApp-master/server/database.js:149-149 | placeholders of a concatenation are those of its parts, unless the second part starts with a digit |
| SqlText.PlaceholderToken | LightBnB_WebApp-master/server/database.js:118-118 | `$` followed by the decimal text of n is one placeholder naming n |
| Decimal.ParseNatToString | LightBnB_WebApp-master/server/database.js:118-118 | the decimal text of a length reads back as that length |
| Decimal.IntToStringRoundTrip | LightBnB_WebApp-master/server/database.js:129-129 | the text of a whole number, sign included, reads back as that number |
| PropertyStore.PropertyTable.AddProperty | LightBnB_WebApp-master/server/database.js:177-183 | the property gets id `count + 1`, is stored under that id, the same object is returned, its other fields and all other entries are unchanged; on a table keyed 1..n nothing is replaced and the keys stay 1..n+1 |
| PropertyStore.NextIdFresh | LightBnB_WebApp-master/server/database.js:178-180 | on a table keyed 1..n the id n+1 is free and storing under it keeps the keys contiguous |
| PropertyStore.IdTakenAfterGap | LightBnB_WebApp-master/server/database.js:178-180 | with a gap in the keys, `count + 1` can already be taken, so the new property replaces an old one |

## Left out

- The database connection (`pool`, `pg`), the promises and their `.catch`: the model stops at the text and value list handed to `pool.query`, and at the stored property that `addProperty` resolves to.
- The `console.log` calls: output only.
- `getUserWithEmail`, `getUserWithId`, `addUser` and `getAllReservations` are not part of this model. `addUser` writes the user's fields into the SQL text, and `getAllReservations` writes its limit into it. They lack the property that `TextIgnoresValues` proves for the search.
- Loading the JSON fixtures: the table's constructor takes the initial map, and `ContiguousKeys` states what `addProperty` relies on.
- Js.ToJsString: `Num` holds any integer and its text is exact, which is what JavaScript writes only for magnitudes up to 2^53. Larger JavaScript numbers are doubles, and `String` prints their shortest round-trip digits padded with zeros (2^60 gives `"1152921504606847000"`), or exponent notation from 1e21 on.
- Fractional numbers, `NaN`, objects and arrays as option values: `JsValue` has whole numbers only.
- The `TypeError` thrown when `options` is `null` or `undefined` (`database.js:116`) or when `property` is (`database.js:179`): `Options` is a record that is always present, and `AddProperty` takes a non-null `Property`, so neither throw can occur in the model.
- PropertyStore.Property.constructor: a property the caller builds with its own `id` field is not modelled. The model holds the id apart from `fields`, and the constructor requires that `fields` have no `"id"` key, so the id `addProperty` sets is the only one.
- Object keys: JavaScript turns the numeric id into a string key. The table is keyed by integers, and `Object.keys(...).length` is the map's size.
- PropertyStore.PropertyTable.AddProperty: the map's size stands for the number of keys, so keys that are not ids, such as non-numeric strings, are not modelled.
- SQL semantics (LIKE, the integer division `cost_per_night/100`, `avg`, grouping, a limit that is not a number): the query is modelled as text and values, not evaluated.
- QueryFacts.HasWhere looks for `WHERE ` at the position right after the JOIN clause, where the source inserts it. It does not search the whole text.
