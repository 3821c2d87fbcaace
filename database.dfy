/** The statement-and-argument construction of the data-access module of a
    property-rental application: each exported query function builds an SQL
    text with positional placeholders and the list of values bound to them,
    and hands both to a database client (the hand-over is not modelled). */
module Database {
  import opened JsValues
  import opened Decimal
  import opened SqlText

  // ---------------------------------------------------------------- Users

  const UserByEmailSql: string := UserByEmailHead + "$1" + ";"
  const UserByEmailHead: string := "SELECT * " + "FROM user " + "WHERE " + "user.email = "

  const UserByIdSql: string := UserByIdHead + "$1" + ";"
  const UserByIdHead: string := "SELECT * " + "FROM users " + "WHERE " + "user.id = "

  /** Look a user up by e-mail: the single argument is bound to `$1`. The text
      names the table `user`, as the source does. */
  function GetUserWithEmail(email: Value): (st: Statement)
    ensures st.sql == UserByEmailSql
    ensures st.params == [email]
    ensures InSync(st)
  {
    assert '$' !in "SELECT * " && '$' !in "FROM user " && '$' !in "WHERE " && '$' !in "user.email = ";
    FixedListInSync(UserByEmailHead, 1, ";");
    assert UserByEmailSql == UserByEmailHead + PlaceholderList(1) + ";";
    Statement(UserByEmailSql, [email])
  }

  /** Look a user up by id: the single argument is bound to `$1`. */
  function GetUserWithId(id: Value): (st: Statement)
    ensures st.sql == UserByIdSql
    ensures st.params == [id]
    ensures InSync(st)
  {
    assert '$' !in "SELECT * " && '$' !in "FROM users " && '$' !in "WHERE " && '$' !in "user.id = ";
    FixedListInSync(UserByIdHead, 1, ";");
    assert UserByIdSql == UserByIdHead + PlaceholderList(1) + ";";
    Statement(UserByIdSql, [id])
  }

  /** The columns of the `users` INSERT, in the order its text lists them. */
  const UserColumns: seq<string> := ["name", "email", "password"]

  /** The text of the user INSERT: the column list and then `$1, $2, $3`. */
  const AddUserSql: string :=
    "INSERT into users (" + CommaJoin(UserColumns) + ") Values (" + PlaceholderList(|UserColumns|) + ") RETURNING *;"


  /** Insert a user: three arguments, the i-th being the user's field named by
      the i-th column of the INSERT and bound to `$(i + 1)`. */
  function AddUser(user: JsObject): (st: Statement)
    ensures |st.params| == |UserColumns|
    ensures forall i :: 0 <= i < |UserColumns| ==> st.params[i] == Get(user, UserColumns[i])
    ensures st.sql == AddUserSql
    ensures InSync(st)
  {
    JoinWithoutDollar(UserColumns);
    FixedListInSync("INSERT into users (" + CommaJoin(UserColumns) + ") Values (", |UserColumns|, ") RETURNING *;");
    Statement(AddUserSql, [Get(user, "name"), Get(user, "email"), Get(user, "password")])
  }

  // ----------------------------------------------------------- Properties

  /** The limit used when none is given. */
  const DefaultLimit: Value := Num(10.0)

  const AllPropertiesSql: string := AllPropertiesHead + "$1"
  const AllPropertiesHead: string := "SELECT * " + "FROM properties " + "LIMIT "

  /** List properties: the only argument is the limit, bound to `$1`; an
      omitted (`undefined`) limit becomes 10, any other value is passed on.
      The options object is accepted and never read. */
  function GetAllProperties(options: JsObject, limit: Value): (st: Statement)
    ensures st.sql == AllPropertiesSql
    ensures |st.params| == 1
    ensures limit != Undefined ==> st.params[0] == limit
    ensures limit == Undefined ==> st.params[0] == DefaultLimit
    ensures InSync(st)
  {
    assert '$' !in "SELECT * " && '$' !in "FROM properties " && '$' !in "LIMIT ";
    FixedListInSync(AllPropertiesHead, 1, "");
    assert AllPropertiesSql == AllPropertiesHead + PlaceholderList(1) + "";
    Statement(AllPropertiesSql, [Default(limit, DefaultLimit)])
  }

  /** The columns of the `properties` INSERT, in the order its text lists them. */
  const PropertyColumns: seq<string> := [
    "owner_id", "title", "description", "thumbnail_photo_url", "cover_photo_url",
    "cost_per_night", "street", "city", "province", "post_code", "country",
    "parking_spaces", "number_of_bathrooms", "number_of_bedrooms"]

  /** The text of the property INSERT: the column list and then `$1, ..., $14`. */
  const AddPropertySql: string :=
    "INSERT INTO properties (" + CommaJoin(PropertyColumns) + ") VALUES(" + PlaceholderList(|PropertyColumns|) + ")  RETURNING *;"


  /** The property INSERT holds exactly the placeholders `$1 .. $14`, in order. */
  lemma AddPropertyPlaceholders()
    ensures Placeholders(AddPropertySql) == Numbers(1, |PropertyColumns|)
  {
    PropertyColumnsWithoutDollar();
    JoinWithoutDollar(PropertyColumns);
    var head := "INSERT INTO properties (" + CommaJoin(PropertyColumns) + ") VALUES(";
    assert '$' !in "INSERT INTO " && '$' !in "properties (" && '$' !in ") VALUES(";
    assert "INSERT INTO properties (" == "INSERT INTO " + "properties (";
    assert '$' !in ")  RETURNING *;";
    FixedListInSync(head, |PropertyColumns|, ")  RETURNING *;");
  }

  lemma PropertyColumnsWithoutDollar()
    ensures forall i :: 0 <= i < |PropertyColumns| ==> '$' !in PropertyColumns[i]
  {
  }

  /** The argument list of the property INSERT: the i-th value is the
      property's field named by the i-th column. */
  function PropertyValues(property: JsObject): (ps: seq<Value>)
    ensures |ps| == |PropertyColumns|
    ensures forall i :: 0 <= i < |PropertyColumns| ==> ps[i] == Get(property, PropertyColumns[i])
  {
    [ Get(property, "owner_id"), Get(property, "title"), Get(property, "description"),
      Get(property, "thumbnail_photo_url"), Get(property, "cover_photo_url"),
      Get(property, "cost_per_night"), Get(property, "street"), Get(property, "city"),
      Get(property, "province"), Get(property, "post_code"), Get(property, "country"),
      Get(property, "parking_spaces"), Get(property, "number_of_bathrooms"),
      Get(property, "number_of_bedrooms") ]
  }

  /** Insert a property: fourteen arguments, the i-th being the property's field
      named by the i-th column of the INSERT and bound to `$(i + 1)`. */
  function AddProperty(property: JsObject): (st: Statement)
    ensures |st.params| == |PropertyColumns| == 14
    ensures forall i :: 0 <= i < |PropertyColumns| ==> st.params[i] == Get(property, PropertyColumns[i])
    ensures st.sql == AddPropertySql
    ensures InSync(st)
  {
    AddPropertyPlaceholders();
    Statement(AddPropertySql, PropertyValues(property))
  }

  // --------------------------------------------------------- Reservations

  /** The four optional filters of the reservation listing. */
  datatype Filter = City | MinimumPrice | MaximumPrice | MinimumRating

  /** The options key each filter reads. */
  function Key(f: Filter): string {
    match f
    case City => "city"
    case MinimumPrice => "minimum_price_per_night"
    case MaximumPrice => "maximum_price_per_night"
    case MinimumRating => "minimum_rating"
  }

  /** The position of a filter in the fixed order in which they are tested. */
  function Rank(f: Filter): nat {
    match f
    case City => 0
    case MinimumPrice => 1
    case MaximumPrice => 2
    case MinimumRating => 3
  }

  /** The text a filter appends before its placeholder number. The city clause
      carries no `AND` of its own; the other three each start with one. */
  function Clause(f: Filter): string {
    Connective(f) + Condition(f) + "$"
  }

  /** The `AND` a clause starts with: none for the city clause. */
  function Connective(f: Filter): string {
    if f == City then "" else " AND"
  }

  /** The comparison of a clause, up to its placeholder. */
  function Condition(f: Filter): string {
    match f
    case City => " properties." + "city = "
    case MinimumPrice => " properties." + "cost_per_night >= "
    case MaximumPrice => " properties." + "cost_per_night <= "
    case MinimumRating => " property_reviews." + "rating >= "
  }

  /** The fixed start of the reservation listing; the guest id is `$1`. */
  const BaseQuery: string := BaseHead + WhereHead + "$1"

  /** The lines of the base text before its `WHERE` line. */
  const BaseHead: string := BaseSelect + JoinProperties + JoinReviews

  const BaseSelect: string := "\n" + "    SELECT " + "* FROM " + "reservations \n"

  const JoinProperties: string :=
    "    JOIN " + "properties ON " + "reservations." + "property_id = " + "properties.id \n"

  const JoinReviews: string :=
    "    JOIN " + "property_reviews ON " + "property_reviews." + "property_id = " + "properties.id\n"

  /** The `WHERE` line up to its placeholder. */
  const WhereHead: string := "    WHERE " + "guest_id = "

  /** `[f]` when the option of `f` is truthy, otherwise nothing. */
  function Selected(options: JsObject, f: Filter): seq<Filter> {
    if Truthy(Get(options, Key(f))) then [f] else []
  }

  /** The filters that contribute a clause, in the order they are emitted.
      They are only looked at when the options object has some key. */
  function ActiveFilters(options: JsObject): seq<Filter> {
    if |options| == 0 then []
    else Selected(options, City) + Selected(options, MinimumPrice)
         + Selected(options, MaximumPrice) + Selected(options, MinimumRating)
  }

  /** The conjunction opened after the base predicate when the options object
      has any key at all, whether or not a filter follows. */
  function Opening(options: JsObject): string {
    if |options| > 0 then " AND" else ""
  }

  /** The clauses of `fs`, the first numbered `$k`, the next `$(k + 1)`, ... */
  function RenderFilters(fs: seq<Filter>, k: nat): string
  {
    if fs == [] then ""
    else RenderFilters(fs[..|fs| - 1], k) + Clause(fs[|fs| - 1]) + NatToString(k + |fs| - 1)
  }

  /** The option values of `fs`, in the same order. */
  function FilterValues(fs: seq<Filter>, options: JsObject): (vs: seq<Value>)
    ensures |vs| == |fs|
    ensures forall i :: 0 <= i < |fs| ==> vs[i] == Get(options, Key(fs[i]))
  {
    if fs == [] then []
    else FilterValues(fs[..|fs| - 1], options) + [Get(options, Key(fs[|fs| - 1]))]
  }

  /** `options.limit || 10`. */
  function LimitValue(options: JsObject): Value {
    Or(Get(options, "limit"), DefaultLimit)
  }

  /** The text the reservation listing sends for `options`. */
  function ReservationQuery(options: JsObject): string {
    ListingText(BaseQuery, options, ActiveFilters(options))
  }

  /** The arguments the reservation listing binds for `guestId` and `options`. */
  function ReservationParams(guestId: Value, options: JsObject): seq<Value> {
    ListingParams(guestId, options, ActiveFilters(options))
  }

  /** The listing text once the filters `fs` are rendered after `base`: the
      opening `AND`, the clauses numbered from `$2`, and the `LIMIT`
      placeholder numbered after them. */
  function ListingText(base: string, options: JsObject, fs: seq<Filter>): string {
    base + Opening(options) + RenderFilters(fs, 2) + " LIMIT $" + NatToString(|fs| + 2)
  }

  /** The listing arguments once the filters `fs` are handled: the guest id,
      the filter values, the limit. */
  function ListingParams(guestId: Value, options: JsObject, fs: seq<Filter>): seq<Value> {
    [guestId] + FilterValues(fs, options) + [LimitValue(options)]
  }

  /** What has been built after the filters `fs` have been handled. */
  ghost predicate Built(base: string, query: string, queryParams: seq<Value>, guestId: Value,
                        options: JsObject, fs: seq<Filter>)
  {
    && query == base + Opening(options) + RenderFilters(fs, 2)
    && queryParams == [guestId] + FilterValues(fs, options)
    && Placeholders(query) == Numbers(1, |queryParams|)
  }

  /** The base text holds the single placeholder `$1`. */
  lemma BasePlaceholders()
    ensures Placeholders(BaseQuery) == [1]
  {
    BaseHeadAvoids('$');
    WhereHeadAvoids('$');
    FixedListInSync(BaseHead + WhereHead, 1, "");
    assert BaseQuery == BaseHead + WhereHead + PlaceholderList(1) + "";
  }

  /** The lines before the `WHERE` line hold neither a `$` nor an upper-case `D`. */
  lemma BaseHeadAvoids(c: char)
    requires c == '$' || c == 'D'
    ensures c !in BaseHead
  {
    BaseSelectAvoids(c);
    JoinPropertiesAvoids(c);
    JoinReviewsAvoids(c);
  }

  lemma BaseSelectAvoids(c: char)
    requires c == '$' || c == 'D'
    ensures c !in BaseSelect
  {
  }

  lemma JoinPropertiesAvoids(c: char)
    requires c == '$' || c == 'D'
    ensures c !in JoinProperties
  {
  }

  lemma JoinReviewsAvoids(c: char)
    requires c == '$' || c == 'D'
    ensures c !in JoinReviews
  {
  }

  lemma WhereHeadAvoids(c: char)
    requires c == '$' || c == 'D'
    ensures c !in WhereHead
  {
  }

  /** The base text holds no `AND`. */
  lemma BaseWithoutAnd()
    ensures CountAnd(BaseQuery) == 0
  {
    BaseHeadAvoids('D');
    WhereHeadAvoids('D');
    assert 'D' !in "$1";
    CountAndWithoutD(BaseQuery);
  }

  /** Rendering one more filter appends its clause numbered after the others. */
  lemma RenderSnoc(fs: seq<Filter>, f: Filter, k: nat)
    ensures RenderFilters(fs + [f], k) == RenderFilters(fs, k) + Clause(f) + NatToString(k + |fs|)
  {
  }

  /** Each clause starts with a space and ends with its only `$`. */
  lemma ClauseShape(f: Filter)
    ensures |Clause(f)| > 0 && Clause(f)[0] == ' ' && Clause(f)[|Clause(f)| - 1] == '$'
    ensures '$' !in Clause(f)[..|Clause(f)| - 1]
  {
    ConditionShape(f);
    var head := Connective(f) + Condition(f);
    assert Clause(f) == head + "$" && Clause(f)[..|Clause(f)| - 1] == head;
    assert '$' !in Connective(f);
  }

  /** Each comparison starts with a space and holds neither a `$` nor an
      upper-case `D`. */
  lemma ConditionShape(f: Filter)
    ensures |Condition(f)| > 0 && Condition(f)[0] == ' '
    ensures '$' !in Condition(f) && 'D' !in Condition(f)
  {
    match f
    case City => CityShape();
    case MinimumPrice => MinimumPriceShape();
    case MaximumPrice => MaximumPriceShape();
    case MinimumRating => MinimumRatingShape();
  }

  lemma CityShape()
    ensures Condition(City) == " properties." + "city = "
    ensures '$' !in Condition(City) && 'D' !in Condition(City)
  {
  }

  lemma MinimumPriceShape()
    ensures Condition(MinimumPrice) == " properties." + "cost_per_night >= "
    ensures '$' !in Condition(MinimumPrice) && 'D' !in Condition(MinimumPrice)
  {
  }

  lemma MaximumPriceShape()
    ensures Condition(MaximumPrice) == " properties." + "cost_per_night <= "
    ensures '$' !in Condition(MaximumPrice) && 'D' !in Condition(MaximumPrice)
  {
  }

  lemma MinimumRatingShape()
    ensures Condition(MinimumRating) == " property_reviews." + "rating >= "
    ensures '$' !in Condition(MinimumRating) && 'D' !in Condition(MinimumRating)
  {
  }

  /** Appending the clause of `f` to the text built for `fs` gives the text
      built for `fs + [f]`. */
  lemma AppendClauseText(base: string, query: string, options: JsObject, fs: seq<Filter>, f: Filter)
    requires query == base + Opening(options) + RenderFilters(fs, 2)
    ensures query + Clause(f) + NatToString(|fs| + 2) == base + Opening(options) + RenderFilters(fs + [f], 2)
  {
    var head, r := base + Opening(options), RenderFilters(fs, 2);
    var c, d := Clause(f), NatToString(|fs| + 2);
    RenderSnoc(fs, f, 2);
    Regroup(head, r, c, d);
  }

  /** Pushing the option value of `f` gives the arguments for `fs + [f]`. */
  lemma AppendFilterValue(queryParams: seq<Value>, guestId: Value, options: JsObject, fs: seq<Filter>, f: Filter)
    requires queryParams == [guestId] + FilterValues(fs, options)
    ensures queryParams + [Get(options, Key(f))] == [guestId] + FilterValues(fs + [f], options)
  {
  }

  /** A clause numbered one past the argument count keeps the text and the
      arguments in step once its value is pushed. */
  lemma AppendFilterPlaceholder(query: string, queryParams: seq<Value>, f: Filter)
    requires Placeholders(query) == Numbers(1, |queryParams|)
    ensures Placeholders(query + Clause(f) + NatToString(|queryParams| + 1)) == Numbers(1, |queryParams| + 1)
  {
    ClauseShape(f);
    NumberedStep(query, Clause(f), |queryParams| + 1);
  }

  /** One guarded step of the listing: append the clause of `f` numbered after
      the arguments so far, and push the option value of `f`. */
  lemma AppendFilter(base: string, query: string, queryParams: seq<Value>, guestId: Value,
                     options: JsObject, fs: seq<Filter>, f: Filter)
    requires Built(base, query, queryParams, guestId, options, fs)
    ensures Built(base, query + Clause(f) + NatToString(|queryParams| + 1),
                  queryParams + [Get(options, Key(f))], guestId, options, fs + [f])
  {
    AppendClauseText(base, query, options, fs, f);
    AppendFilterValue(queryParams, guestId, options, fs, f);
    AppendFilterPlaceholder(query, queryParams, f);
  }

  /** Opening the conjunction keeps the base placeholder alone in the text. */
  lemma OpenConjunction(base: string, guestId: Value, options: JsObject)
    requires Placeholders(base) == [1] && |options| > 0
    ensures Built(base, base + " AND", [guestId], guestId, options, [])
  {
    PlaceholdersAppend(base, " AND");
    PlaceholdersSkip(" AND", []);
    assert " AND" + [] == " AND";
    assert base + Opening(options) + RenderFilters([], 2) == base + " AND" + "";
  }

  /** The `LIMIT` step: the last placeholder is numbered after every filter
      value and the limit value is pushed last. */
  lemma AppendLimit(base: string, query: string, queryParams: seq<Value>, guestId: Value,
                    options: JsObject, fs: seq<Filter>)
    requires Built(base, query, queryParams, guestId, options, fs)
    ensures var q := query + " LIMIT $" + NatToString(|queryParams| + 1);
            var ps := queryParams + [LimitValue(options)];
            && q == ListingText(base, options, fs)
            && ps == ListingParams(guestId, options, fs)
            && Placeholders(q) == Numbers(1, |ps|)
            && base <= q
  {
    var n := |queryParams| + 1;
    assert n == |fs| + 2;
    LimitPlaceholder(query, n);
    LimitText(base, Opening(options) + RenderFilters(fs, 2), NatToString(n));
  }

  lemma LimitPlaceholder(query: string, n: nat)
    requires n > 0 && Placeholders(query) == Numbers(1, n - 1)
    ensures Placeholders(query + " LIMIT $" + NatToString(n)) == Numbers(1, n)
  {
    NumberedStep(query, " LIMIT $", n);
  }

  lemma LimitText(base: string, middle: string, numeral: string)
    ensures base + middle + " LIMIT $" + numeral == base + (middle + " LIMIT $" + numeral)
    ensures base <= base + middle + " LIMIT $" + numeral
  {
  }

  /** One guarded step of the listing: when the option of `f` is truthy, append
      the clause of `f` numbered one past the current argument count and push
      the option value; otherwise change nothing. */
  method AppendFilterIfSet(query: string, queryParams: seq<Value>, options: JsObject, f: Filter,
                           ghost base: string, ghost guestId: Value, ghost fs: seq<Filter>)
    returns (query': string, queryParams': seq<Value>)
    requires Built(base, query, queryParams, guestId, options, fs)
    ensures Built(base, query', queryParams', guestId, options, fs + Selected(options, f))
    ensures Truthy(Get(options, Key(f))) ==>
              && query' == query + Clause(f) + NatToString(|queryParams| + 1)
              && queryParams' == queryParams + [Get(options, Key(f))]
    ensures !Truthy(Get(options, Key(f))) ==> query' == query && queryParams' == queryParams
  {
    query', queryParams' := query, queryParams;
    if Truthy(Get(options, Key(f))) {
      AppendFilter(base, query, queryParams, guestId, options, fs, f);
      query' := query + Clause(f) + NatToString(|queryParams| + 1);
      queryParams' := queryParams + [Get(options, Key(f))];
    } else {
      assert fs + Selected(options, f) == fs;
    }
  }

  /** The filter part of the listing: when the options object has any key,
      append `AND` and then, in the order city, minimum price, maximum price,
      minimum rating, the clause of each filter whose option is truthy. */
  method AppendFilters(query: string, queryParams: seq<Value>, options: JsObject,
                       ghost base: string, ghost guestId: Value)
    returns (query': string, queryParams': seq<Value>)
    requires query == base && queryParams == [guestId] && Placeholders(base) == [1]
    ensures Built(base, query', queryParams', guestId, options, ActiveFilters(options))
  {
    query', queryParams' := query, queryParams;
    ghost var fs: seq<Filter> := [];
    if |options| > 0 {
      query' := query' + " AND";
      OpenConjunction(base, guestId, options);
      query', queryParams' := AppendFilterIfSet(query', queryParams', options, City, base, guestId, fs);
      fs := fs + Selected(options, City);
      query', queryParams' := AppendFilterIfSet(query', queryParams', options, MinimumPrice, base, guestId, fs);
      fs := fs + Selected(options, MinimumPrice);
      query', queryParams' := AppendFilterIfSet(query', queryParams', options, MaximumPrice, base, guestId, fs);
      fs := fs + Selected(options, MaximumPrice);
      query', queryParams' := AppendFilterIfSet(query', queryParams', options, MinimumRating, base, guestId, fs);
      fs := fs + Selected(options, MinimumRating);
      assert fs == ActiveFilters(options);
    } else {
      assert base == base + Opening(options) + RenderFilters(fs, 2);
    }
  }

  /** List a guest's reservations: start from the base text and `[guestId]`,
      append the filter clauses, then the `LIMIT` placeholder numbered one past
      the argument count, bound to `options.limit || 10`. */
  method GetAllReservations(guestId: Value, options: JsObject)
    returns (query: string, queryParams: seq<Value>)
    ensures query == ReservationQuery(options)
    ensures queryParams == ReservationParams(guestId, options)
    ensures InSync(Statement(query, queryParams))
    ensures BaseQuery <= query && queryParams[0] == guestId
    ensures |queryParams| == 2 + |ActiveFilters(options)|
    ensures queryParams[|queryParams| - 1] == LimitValue(options)
  {
    BasePlaceholders();
    query, queryParams := AppendFilters(BaseQuery, [guestId], options, BaseQuery, guestId);
    AppendLimit(BaseQuery, query, queryParams, guestId, options, ActiveFilters(options));
    query := query + " LIMIT $" + NatToString(|queryParams| + 1);
    queryParams := queryParams + [Or(Get(options, "limit"), DefaultLimit)];
  }
}
