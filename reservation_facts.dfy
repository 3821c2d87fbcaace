/** What the reservation listing's text and arguments look like for every
    guest id and options object, stated on the functions `ReservationQuery`
    and `ReservationParams` that the builder method is proved against. The
    general facts are proved for any base text holding `$1` only, and then
    applied to the listing's own base text. */
module ReservationFacts {
  import opened JsValues
  import opened Decimal
  import opened SqlText
  import opened Database

  // --------------------------------------------------------- The listing

  /** The placeholders and the arguments of every listing are in step: the
      text holds exactly `$1 .. $n` for its `n` arguments. */
  lemma ReservationInSync(guestId: Value, options: JsObject)
    ensures InSync(Statement(ReservationQuery(options), ReservationParams(guestId, options)))
  {
    BasePlaceholders();
    ListingInSync(BaseQuery, guestId, options, ActiveFilters(options));
  }

  /** The arguments of every listing: the guest id first, one value per active
      filter, and `options.limit || 10` last. */
  lemma ReservationArguments(guestId: Value, options: JsObject)
    ensures var ps := ReservationParams(guestId, options);
            && |ps| == 2 + |ActiveFilters(options)|
            && ps[0] == guestId && ps[|ps| - 1] == LimitValue(options)
  {
  }

  /** Every listing text starts with the base text and ends with the `LIMIT`
      placeholder numbered after all the arguments. */
  lemma ReservationEnds(options: JsObject)
    ensures var q, n := ReservationQuery(options), |ActiveFilters(options)| + 2;
            var tail := " LIMIT $" + NatToString(n);
            && BaseQuery <= q
            && |tail| <= |q| && q[|q| - |tail|..] == tail
  {
    var fs := ActiveFilters(options);
    TextStart(BaseQuery, Opening(options), RenderFilters(fs, 2), " LIMIT $", NatToString(|fs| + 2));
    TextEnd(BaseQuery, Opening(options), RenderFilters(fs, 2), " LIMIT $", NatToString(|fs| + 2));
  }

  /** A filter contributes a clause exactly when its option is truthy (an empty
      options object has no truthy option). */
  lemma ActiveFiltersIff(options: JsObject, f: Filter)
    ensures f in ActiveFilters(options) <==> Truthy(Get(options, Key(f)))
  {
  }

  /** The active filters come in the fixed order city, minimum price, maximum
      price, minimum rating, each at most once. */
  lemma ActiveFiltersOrdered(options: JsObject)
    ensures forall i, j :: 0 <= i < j < |ActiveFilters(options)| ==>
              Rank(ActiveFilters(options)[i]) < Rank(ActiveFilters(options)[j])
  {
  }

  /** The `i`-th active filter is paired with argument `i + 1`: the text before
      its clause holds exactly `$1 .. $(i + 1)`, its clause carries `$(i + 2)`,
      and the argument bound there is the filter's option value. */
  lemma ReservationPairing(guestId: Value, options: JsObject, i: nat)
    requires i < |ActiveFilters(options)|
    ensures var fs := ActiveFilters(options);
            var before := BaseQuery + Opening(options) + RenderFilters(fs[..i], 2);
            && Placeholders(before) == Numbers(1, i + 1)
            && before + Clause(fs[i]) + NatToString(i + 2) <= ReservationQuery(options)
            && ReservationParams(guestId, options)[i + 1] == Get(options, Key(fs[i]))
  {
    BasePlaceholders();
    ListingPairing(BaseQuery, guestId, options, ActiveFilters(options), i);
  }

  /** The number of `AND`s in the text: one opening the conjunction whenever
      the options object has any key (even when no filter follows, and even
      when the first filter brings its own `AND`), plus one per active filter
      other than the city filter. */
  lemma ReservationAndCount(options: JsObject)
    ensures var fs := ActiveFilters(options);
            CountAnd(ReservationQuery(options))
              == (if |options| > 0 then 1 else 0) + |fs| - multiset(fs)[City]
  {
    BaseWithoutAnd();
    ListingAndCount(BaseQuery, options, ActiveFilters(options));
  }

  /** An empty options object adds no clause: the text is the base text
      followed by `LIMIT $2`, bound to the default limit 10. */
  lemma EmptyOptions(guestId: Value)
    ensures ReservationQuery(map[]) == BaseQuery + " LIMIT $2"
    ensures ReservationParams(guestId, map[]) == [guestId, Num(10.0)]
  {
  }

  /** Options with keys but no truthy filter still open the conjunction, which
      no clause follows. */
  lemma KeysWithoutFilter(guestId: Value, options: JsObject)
    requires |options| > 0
    requires forall f: Filter :: !Truthy(Get(options, Key(f)))
    ensures ReservationQuery(options) == BaseQuery + " AND LIMIT $2"
    ensures ReservationParams(guestId, options) == [guestId, LimitValue(options)]
  {
    assert !Truthy(Get(options, Key(City))) && !Truthy(Get(options, Key(MinimumPrice)));
    assert !Truthy(Get(options, Key(MaximumPrice))) && !Truthy(Get(options, Key(MinimumRating)));
    assert ActiveFilters(options) == [];
    assert NatToString(2) == "2";
  }

  /** Without a city filter the first active filter brings its own `AND`
      right after the opening one, so the text reads `AND AND` there. */
  lemma DoubledAnd(options: JsObject, f: Filter)
    requires f != City && Truthy(Get(options, Key(f)))
    requires !Truthy(Get(options, Key(City)))
    ensures BaseQuery + " AND AND" <= ReservationQuery(options)
  {
    var fs := ActiveFilters(options);
    ActiveFiltersIff(options, f);
    ActiveFiltersIff(options, City);
    assert fs != [] && fs[0] != City;
    DoubledAndFor(BaseQuery, options, fs);
  }

  /** Options whose only key is `limit` open the conjunction and bind the limit. */
  lemma OnlyLimit(guestId: Value, limit: Value)
    ensures ReservationQuery(map["limit" := limit]) == BaseQuery + " AND LIMIT $2"
    ensures ReservationParams(guestId, map["limit" := limit])
              == [guestId, Or(limit, DefaultLimit)]
  {
    var options := map["limit" := limit];
    forall f: Filter ensures !Truthy(Get(options, Key(f))) {
      assert Key(f) != "limit";
    }
    KeysWithoutFilter(guestId, options);
  }

  // ------------------------------------------------ Any base, any filters

  /** Handling the filters `fs` one after the other, starting from a base text
      that holds `$1` only, yields the rendered clauses and their values. */
  lemma {:induction false} BuiltFor(base: string, guestId: Value, options: JsObject, fs: seq<Filter>)
    requires Placeholders(base) == [1]
    requires |options| > 0 || fs == []
    ensures Built(base, base + Opening(options) + RenderFilters(fs, 2),
                  [guestId] + FilterValues(fs, options), guestId, options, fs)
    decreases |fs|
  {
    if fs == [] {
      if |options| > 0 {
        OpenConjunction(base, guestId, options);
      } else {
        assert base + Opening(options) + RenderFilters(fs, 2) == base;
      }
      assert [guestId] + FilterValues(fs, options) == [guestId];
    } else {
      var init, f := fs[..|fs| - 1], fs[|fs| - 1];
      BuiltFor(base, guestId, options, init);
      AppendFilter(base, base + Opening(options) + RenderFilters(init, 2),
                   [guestId] + FilterValues(init, options), guestId, options, init, f);
      SnocSplit(fs);
    }
  }

  /** `DoubledAnd` for any base text and any filter list not starting with
      the city filter. */
  lemma DoubledAndFor(base: string, options: JsObject, fs: seq<Filter>)
    requires |options| > 0 && fs != [] && fs[0] != City
    ensures base + " AND AND" <= ListingText(base, options, fs)
  {
    ClauseInListing(base, options, fs, 0);
    assert fs[..0] == [];
    var c := Clause(fs[0]);
    assert c == " AND" + Condition(fs[0]) + "$";
    OpeningThenClause(base, c, NatToString(2));
  }

  lemma OpeningThenClause(base: string, c: string, n: string)
    requires |c| >= 4 && c[..4] == " AND"
    ensures base + " AND AND" <= base + " AND" + RenderFilters([], 2) + c + n
  {
  }

  /** `ReservationInSync` for any base text holding `$1` only and any filter
      list handled after the opening. */
  lemma {:induction false} ListingInSync(base: string, guestId: Value, options: JsObject, fs: seq<Filter>)
    requires Placeholders(base) == [1]
    requires |options| > 0 || fs == []
    ensures InSync(Statement(ListingText(base, options, fs), ListingParams(guestId, options, fs)))
  {
    BuiltFor(base, guestId, options, fs);
    AppendLimit(base, base + Opening(options) + RenderFilters(fs, 2),
                [guestId] + FilterValues(fs, options), guestId, options, fs);
  }

  /** `b + o + r + l + n` starts with `b`. */
  lemma TextStart(b: string, o: string, r: string, l: string, n: string)
    ensures b <= b + o + r + l + n
  {
  }

  /** `b + o + r + l + n` ends with `l + n`. */
  lemma TextEnd(b: string, o: string, r: string, l: string, n: string)
    ensures var q := b + o + r + l + n;
            |l + n| <= |q| && q[|q| - |l + n|..] == l + n
  {
  }

  /** `ReservationPairing` for any base text holding `$1` only. */
  lemma {:induction false} ListingPairing(base: string, guestId: Value, options: JsObject,
                                          fs: seq<Filter>, i: nat)
    requires Placeholders(base) == [1]
    requires |options| > 0 && i < |fs|
    ensures var before := base + Opening(options) + RenderFilters(fs[..i], 2);
            && Placeholders(before) == Numbers(1, i + 1)
            && before + Clause(fs[i]) + NatToString(i + 2) <= ListingText(base, options, fs)
            && ListingParams(guestId, options, fs)[i + 1] == Get(options, Key(fs[i]))
  {
    PlaceholdersBefore(base, guestId, options, fs, i);
    ClauseInListing(base, options, fs, i);
  }

  lemma {:induction false} PlaceholdersBefore(base: string, guestId: Value, options: JsObject,
                                              fs: seq<Filter>, i: nat)
    requires Placeholders(base) == [1]
    requires |options| > 0 && i < |fs|
    ensures Placeholders(base + Opening(options) + RenderFilters(fs[..i], 2)) == Numbers(1, i + 1)
  {
    BuiltFor(base, guestId, options, fs[..i]);
  }

  lemma ClauseInListing(base: string, options: JsObject, fs: seq<Filter>, i: nat)
    requires i < |fs|
    ensures base + Opening(options) + RenderFilters(fs[..i], 2) + Clause(fs[i]) + NatToString(i + 2)
              <= ListingText(base, options, fs)
  {
    ClausePrefix(fs, i);
    PrefixUnderHead(base, Opening(options), RenderFilters(fs[..i], 2), Clause(fs[i]),
                    NatToString(i + 2), RenderFilters(fs, 2), " LIMIT $", NatToString(|fs| + 2));
  }

  /** The `i`-th clause, numbered `i + 2`, follows the first `i` clauses in
      the rendering of `fs`. */
  lemma ClausePrefix(fs: seq<Filter>, i: nat)
    requires i < |fs|
    ensures RenderFilters(fs[..i], 2) + Clause(fs[i]) + NatToString(i + 2) <= RenderFilters(fs, 2)
  {
    RenderSnoc(fs[..i], fs[i], 2);
    PrefixSnoc(fs, i);
    RenderPrefix(fs, 2, i + 1);
  }

  /** Rendering a prefix of the filters gives a prefix of the rendered text. */
  lemma {:induction false} RenderPrefix(fs: seq<Filter>, k: nat, j: nat)
    requires j <= |fs|
    ensures RenderFilters(fs[..j], k) <= RenderFilters(fs, k)
    decreases |fs|
  {
    if j < |fs| {
      var init := fs[..|fs| - 1];
      assert fs[..j] == init[..j];
      RenderPrefix(init, k, j);
    } else {
      assert fs[..j] == fs;
    }
  }

  /** Extending both sides of a prefix relation by the same head and the
      right side by a tail. */
  lemma PrefixUnderHead(b: string, o: string, x: string, y: string, z: string, w: string,
                        l: string, n: string)
    requires x + y + z <= w
    ensures b + o + x + y + z <= b + o + w + l + n
  {
  }

  /** `ReservationAndCount` for any base text without an `AND`. */
  lemma {:induction false} ListingAndCount(base: string, options: JsObject, fs: seq<Filter>)
    requires CountAnd(base) == 0
    ensures CountAnd(ListingText(base, options, fs))
              == (if |options| > 0 then 1 else 0) + |fs| - multiset(fs)[City]
  {
    var withOpening := base + Opening(options);
    var tail := " LIMIT $" + NatToString(|fs| + 2);
    NumeralWithoutD(|fs| + 2);
    assert 'D' !in " LIMIT $";
    assert ListingText(base, options, fs) == withOpening + RenderFilters(fs, 2) + tail;
    CountAndNoDTail(withOpening + RenderFilters(fs, 2), tail);
    RenderAndCount(withOpening, fs, 2);
    if |options| > 0 {
      CountAndAppend(base, " AND");
      AndAlone();
    } else {
      assert withOpening == base;
    }
  }

  /** Each rendered filter other than the city filter adds one `AND`. */
  lemma {:induction false} RenderAndCount(p: string, fs: seq<Filter>, k: nat)
    ensures CountAnd(p + RenderFilters(fs, k)) == CountAnd(p) + |fs| - multiset(fs)[City]
    decreases |fs|
  {
    if fs == [] {
      assert p + RenderFilters(fs, k) == p;
    } else {
      var init, f := fs[..|fs| - 1], fs[|fs| - 1];
      RenderAndCount(p, init, k);
      SnocSplit(fs);
      RenderStepText(p, init, f, k);
      ClauseStepAndCount(p + RenderFilters(init, k), f, k + |init|);
      CityCountSnoc(init, f);
    }
  }

  /** Rendering one more filter after `p` appends its clause and number. */
  lemma RenderStepText(p: string, fs: seq<Filter>, f: Filter, k: nat)
    ensures p + RenderFilters(fs + [f], k) == p + RenderFilters(fs, k) + (Clause(f) + NatToString(k + |fs|))
  {
    RenderSnoc(fs, f, k);
    Regroup(p, RenderFilters(fs, k), Clause(f), NatToString(k + |fs|));
  }

  /** Appending a numbered clause adds its own `AND`s only. */
  lemma ClauseStepAndCount(x: string, f: Filter, n: nat)
    ensures CountAnd(x + (Clause(f) + NatToString(n))) == CountAnd(x) + if f == City then 0 else 1
  {
    ClauseShape(f);
    CountAndAppend(x, Clause(f) + NatToString(n));
    ClauseAndCount(f, n);
  }

  /** A clause and its number hold one `AND`, except the city clause. */
  lemma ClauseAndCount(f: Filter, n: nat)
    ensures CountAnd(Clause(f) + NatToString(n)) == if f == City then 0 else 1
  {
    var rest := Condition(f) + ("$" + NatToString(n));
    ConditionShape(f);
    NumeralWithoutD(n);
    assert 'D' !in rest;
    assert Clause(f) + NatToString(n) == Connective(f) + rest;
    CountAndNoDTail(Connective(f), rest);
    if f != City {
      AndAlone();
    }
  }

  /** ` AND` on its own holds one `AND`. */
  lemma AndAlone()
    ensures CountAnd(" AND") == 1
  {
    assert " AND"[..3][0] == ' ' && " AND"[1..] == "AND";
    assert "AND"[..3] == "AND" && |"AND"[1..]| < 3;
  }

  lemma CityCountSnoc(fs: seq<Filter>, f: Filter)
    ensures multiset(fs + [f])[City] == multiset(fs)[City] + if f == City then 1 else 0
  {
  }

  /** A non-empty sequence is its front followed by its last element. */
  lemma SnocSplit<T>(s: seq<T>)
    requires |s| > 0
    ensures s[..|s| - 1] + [s[|s| - 1]] == s
  {
  }

  /** A prefix extended by the next element is the next prefix. */
  lemma PrefixSnoc<T>(s: seq<T>, i: nat)
    requires i < |s|
    ensures s[..i] + [s[i]] == s[..i + 1]
  {
  }
}
