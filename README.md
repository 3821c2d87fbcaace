# LightBnB query gateway — a Dafny model

LightBnB's data-access module (`LightBnB_WebApp/db/database.js`) exports six
query functions:
- look a user up by e-mail;
- look a user up by id;
- insert a user;
- list a guest's reservations;
- list properties;
- insert a property.

Each function builds an SQL text with positional placeholders `$1, $2, ...`
and the list of values bound to them, then hands both to a PostgreSQL client.
This project models how each (text, arguments) pair is built. It proves:
- the placeholders in the text and the arguments are in step;
- each argument is the intended input field;
- what the texts look like.

Modules:

- `JsValues` (`js_values.dfy`) — the JavaScript values the functions read:
  - `undefined`, `null`, booleans, numbers (with NaN), strings and objects;
  - ToBoolean truthiness;
  - property access on a plain object (a missing key reads as `undefined`);
  - `a || b`;
  - default parameters.
- `Decimal` (`decimal.dfy`) — the decimal numeral of a natural number, which
  is what `"$" + (queryParams.length + 1)` produces, and reading it back.
- `SqlText` (`sql_text.dfy`) — a statement as text plus arguments:
  - a scanner for the placeholders `$<digits>` in a text;
  - `InSync`: the text holds exactly `$1 .. $n` in order, for its `n`
    arguments;
  - a counter of the keyword `AND`.
- `Database` (`database.dfy`) — the six query builders:
  - the users and properties functions are pure (text, arguments) values;
  - the reservation listing is a method that grows a string and an argument
    sequence step by step, as the source does. It is proved against the
    specification functions `ReservationQuery` and `ReservationParams`.
- `InsertTexts` (`insert_texts.dfy`) — the two INSERT texts are built from
  their column lists. These lemmas spell each one out as the literal text the
  module sends.
- `ListingTexts` (`listing_texts.dfy`) — the listing's base text and its four
  clauses are assembled from short pieces. These lemmas spell them out as the
  literal texts the listing appends.
- `ReservationFacts` (`reservation_facts.dfy`) — what every reservation
  listing looks like, for every guest id and every options object.

The listing's own comments say that ` AND` opens the filtering options
(line 92) and that the limit defaults to 10 when not specified (line 123).
The code does something narrower in places, and the model follows the code.
Two consequences are proved rather than corrected:
- The code tests whether the options object has any key, not whether a
  filter is set. So an options object with keys always appends ` AND`, even
  when no filter follows. Options holding only `limit` therefore yield
  `... AND LIMIT $2` (`OnlyLimit`, `KeysWithoutFilter`).
- Only the city clause has no `AND` of its own. Any truthy filter without a
  city therefore yields `AND AND` after the base text (`DoubledAnd`).

The user-by-e-mail text names the table `user` and the user-by-id text selects
from `users` but filters on `user.id`. Both are modelled as written.

## Model

| member | source | states |
|---|---|---|
| JsValues.Or | LightBnB_WebApp/db/database.js:123 | `a` or-else `b` (JavaScript's double-bar operator) yields `a` when `a` is truthy and `b` otherwise. Its result is truthy iff either operand is. |
| JsValues.Default | LightBnB_WebApp/db/database.js:146 | A default parameter turns `undefined` into the default. Any other argument, including `null`, `0` and `""`, is passed through. |
| JsValues.EmptyObjectIsFalsy | LightBnB_WebApp/db/database.js:93-97 | An object with no keys reads `undefined`, which is falsy, at every key. |
| Decimal.DecimalValueOfNatToString | LightBnB_WebApp/db/database.js:98 | Reading the decimal numeral of `n` back gives `n`. So the number appended after `$` is the argument position. |
| Decimal.NatToStringInjective | LightBnB_WebApp/db/database.js:122 | Different positions get different numerals. |
| SqlText.PlaceholderListNumbers | LightBnB_WebApp/db/database.js:62 | The list `$1, ..., $n` holds exactly the placeholders `1 .. n`, in order. |
| SqlText.PlaceholdersAppend | LightBnB_WebApp/db/database.js:98 | Placeholders of a concatenation are those of each part, unless the right part starts with a digit. |
| Database.GetUserWithEmail | LightBnB_WebApp/db/database.js:25-27 | The e-mail is the only argument. The text is the fixed lookup text, and it holds exactly `$1`. |
| Database.GetUserWithId | LightBnB_WebApp/db/database.js:42-44 | The id is the only argument. The text is the fixed lookup text, and it holds exactly `$1`. |
| Database.AddUser | LightBnB_WebApp/db/database.js:59-63 | Three arguments. The i-th is the user field named by the i-th INSERT column. The text holds exactly `$1 .. $3`. |
| InsertTexts.AddUserSqlSpelled | LightBnB_WebApp/db/database.js:62 | The user INSERT text, built from its column list, is the literal text of the source. |
| Database.GetAllProperties | LightBnB_WebApp/db/database.js:146-148 | One argument, bound to `$1`. It is the limit when one is given (even `null`) and 10 when it is `undefined`. The options are not read. |
| Database.PropertyValues | LightBnB_WebApp/db/database.js:165 | Fourteen values. The i-th is the property field named by the i-th INSERT column. |
| Database.AddPropertyPlaceholders | LightBnB_WebApp/db/database.js:165 | The property INSERT text holds exactly `$1 .. $14`, in order. |
| Database.AddProperty | LightBnB_WebApp/db/database.js:163-165 | Fourteen arguments, each bound to the placeholder of its column. The text and the arguments are in step. |
| InsertTexts.AddPropertySqlSpelled | LightBnB_WebApp/db/database.js:165 | The property INSERT text, built from its column list, is the literal text of the source. |
| Database.FilterValues | LightBnB_WebApp/db/database.js:97-118 | One pushed value per filter, in filter order. Each is the option the filter reads. |
| Database.BasePlaceholders | LightBnB_WebApp/db/database.js:83-87 | The base listing text holds the single placeholder `$1`. |
| ListingTexts.BaseQuerySpelled | LightBnB_WebApp/db/database.js:83-87 | The base listing text, written out line by line, is the literal of the source. |
| ListingTexts.CityClauseSpelled | LightBnB_WebApp/db/database.js:98 | The city clause is ` properties.city = $`, with no `AND` of its own. |
| ListingTexts.MinimumPriceClauseSpelled | LightBnB_WebApp/db/database.js:104 | The minimum-price clause is ` AND properties.cost_per_night >= $`. |
| ListingTexts.MaximumPriceClauseSpelled | LightBnB_WebApp/db/database.js:110 | The maximum-price clause is ` AND properties.cost_per_night <= $`. |
| ListingTexts.MinimumRatingClauseSpelled | LightBnB_WebApp/db/database.js:116 | The minimum-rating clause is ` AND property_reviews.rating >= $`. |
| Database.BaseWithoutAnd | LightBnB_WebApp/db/database.js:83-87 | The base listing text holds no `AND`. |
| Database.AppendFilterIfSet | LightBnB_WebApp/db/database.js:97-118 | One guarded filter step. When the option is truthy, it appends the clause numbered `length + 1` and pushes the option value. When the option is falsy, nothing changes. Either way the text and the arguments stay in step. |
| Database.AppendFilters | LightBnB_WebApp/db/database.js:93-119 | After the options block, the text is the base text, the opening ` AND` when the options have any key, and the active clauses numbered from `$2`. The arguments are the guest id and the option values, in step with the text. |
| Database.AppendLimit | LightBnB_WebApp/db/database.js:121-123 | Appending ` LIMIT $(length + 1)` and pushing `options.limit`, or 10 when it is falsy, completes the listing. The text and the arguments stay in step. |
| Database.GetAllReservations | LightBnB_WebApp/db/database.js:81-123 | The built text and arguments equal `ReservationQuery` and `ReservationParams` and are in step. The text starts with the base text. The guest id is first, there are `2 + #active filters` arguments, and the limit value is last. |
| ReservationFacts.ReservationInSync | LightBnB_WebApp/db/database.js:81-123 | For every guest id and options object, the listing text holds exactly `$1 .. $n` for its `n` arguments. |
| ReservationFacts.ReservationArguments | LightBnB_WebApp/db/database.js:90-123 | The guest id is first, there is one value per active filter, and `options.limit`, or 10 when it is falsy, is last. |
| ReservationFacts.ReservationEnds | LightBnB_WebApp/db/database.js:83-122 | The text starts with the base text and ends with ` LIMIT $n`, where `n` is the number of arguments. |
| ReservationFacts.ActiveFiltersIff | LightBnB_WebApp/db/database.js:93-118 | A filter contributes a clause if and only if its option is truthy. |
| ReservationFacts.ActiveFiltersOrdered | LightBnB_WebApp/db/database.js:96-118 | Clauses come in the fixed order city, minimum price, maximum price, minimum rating, each at most once. |
| ReservationFacts.ReservationPairing | LightBnB_WebApp/db/database.js:97-118 | The i-th active clause carries `$(i + 2)`, and the text before it holds exactly `$1 .. $(i + 1)`. The argument at that position is the clause's option value. |
| ReservationFacts.ReservationAndCount | LightBnB_WebApp/db/database.js:93-118 | The text holds one `AND` when the options have any key, plus one per active filter other than city. |
| ReservationFacts.EmptyOptions | LightBnB_WebApp/db/database.js:81-123 | With no options, the text is the base text plus ` LIMIT $2`, and the arguments are the guest id and 10. |
| ReservationFacts.KeysWithoutFilter | LightBnB_WebApp/db/database.js:93-123 | Options with keys but no truthy filter give the base text plus ` AND LIMIT $2`: a dangling `AND`. |
| ReservationFacts.OnlyLimit | LightBnB_WebApp/db/database.js:93-123 | Options holding only `limit` give the base text plus ` AND LIMIT $2`, with `limit`, or 10 when it is falsy, bound to `$2`. |
| ReservationFacts.DoubledAnd | LightBnB_WebApp/db/database.js:93-110 | A truthy filter other than city, without a city filter, puts ` AND AND` right after the base text. |

## Left out

- The PostgreSQL client: creating it, connecting, the greeting query and the
  diagnostic `SELECT title` at load time (lines 4-16). Submitting each
  statement is also left out. The model stops at the (text, arguments) pair.
- Promises, the `then`/`catch` continuations, logging, and what each function
  returns. The listing re-raises a query error while the other functions
  swallow it. None of this is modelled, because it depends on the external
  client.
- What the database does with a statement: SQL syntax, whether the tables and
  columns exist, and the rows it returns. Whether `AND LIMIT` or `AND AND`
  is rejected by the server is outside the model; only the text is modelled.
- The JSON fixtures loaded at lines 1-2, which no function uses, and the
  module exports (lines 175-182).
- JavaScript numbers: a finite double is a `real`, and NaN is a separate
  value. `Infinity` and `-Infinity` cannot be written as a `Value`, and
  BigInt, symbols and `-0` versus `+0` are left out. Only truthiness is
  looked at.
- Options for the listing are modelled as a map from their own enumerable
  keys to values. An omitted or `undefined` options argument becomes `{}`
  through the default at line 81, which is `map[]` in the model. A `null`
  options argument makes `Object.keys` throw a TypeError; this is not
  modelled. A primitive options argument is covered by the map of its own
  keys: the string `"ab"` has keys `"0"` and `"1"` and no filter or `limit`
  property, so the listing is the base text plus ` AND LIMIT $2`. Inherited
  properties and getters are left out.
- `addUser` and `addProperty` read fields of their argument, so a `null` or
  `undefined` user or property throws a TypeError. `AddUser` and
  `AddProperty` take a `JsObject`, which cannot be `null` or `undefined`, so
  this error path is not modelled.
