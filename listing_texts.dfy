/** The reservation listing's fixed texts are assembled from short pieces; the
    lemmas here spell the base text and the four filter clauses out as the
    literal texts the data-access module appends. */
module ListingTexts {
  import opened Database

  /** The base text: three lines up to the `WHERE` line, which binds `$1`. */
  lemma BaseQuerySpelled()
    ensures BaseQuery ==
      "\n    SELECT * FROM reservations \n"
      + ("    JOIN properties ON " + "reservations.property_id = " + "properties.id \n")
      + ("    JOIN property_reviews ON " + "property_reviews.property_id = " + "properties.id\n")
      + "    WHERE guest_id = " + "$1"
  {
    BaseSelectSpelled();
    JoinPropertiesSpelled();
    JoinReviewsSpelled();
    WhereHeadSpelled();
  }

  lemma BaseSelectSpelled()
    ensures BaseSelect == "\n    SELECT * FROM reservations \n"
  {
  }

  lemma JoinPropertiesSpelled()
    ensures JoinProperties ==
      "    JOIN properties ON " + "reservations.property_id = " + "properties.id \n"
  {
    assert "    JOIN " + "properties ON " == "    JOIN properties ON ";
    assert "reservations." + "property_id = " == "reservations.property_id = ";
  }

  lemma JoinReviewsSpelled()
    ensures JoinReviews ==
      "    JOIN property_reviews ON " + "property_reviews.property_id = " + "properties.id\n"
  {
    assert "    JOIN " + "property_reviews ON " == "    JOIN property_reviews ON ";
    assert "property_reviews." + "property_id = " == "property_reviews.property_id = ";
  }

  lemma WhereHeadSpelled()
    ensures WhereHead == "    WHERE guest_id = "
  {
  }

  /** The four clauses, each up to the `$` its number follows. */
  lemma CityClauseSpelled()
    ensures Clause(City) == "" + " properties.city = " + "$"
  {
  }

  lemma MinimumPriceClauseSpelled()
    ensures Clause(MinimumPrice) == " AND" + " properties.cost_per_night >= " + "$"
  {
  }

  lemma MaximumPriceClauseSpelled()
    ensures Clause(MaximumPrice) == " AND" + " properties.cost_per_night <= " + "$"
  {
  }

  lemma MinimumRatingClauseSpelled()
    ensures Clause(MinimumRating) == " AND" + " property_reviews.rating >= " + "$"
  {
  }
}
