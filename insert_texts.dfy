/** The two INSERT texts are built from their column lists and numbered
    placeholder lists; the lemmas here spell both out, piece by piece, as the
    literal texts the data-access module sends. */
module InsertTexts {
  import opened Decimal
  import opened SqlText
  import opened Database

  /** The user INSERT text, written out. */
  lemma AddUserSqlSpelled()
    ensures AddUserSql ==
      "INSERT into users (" + ("name" + ", " + "email" + ", " + "password") + ") Values ("
      + ("$1" + ", $" + "2" + ", $" + "3") + ") RETURNING *;"
  {
    UserJoin();
    ThreePlaceholders();
  }

  /** The property INSERT text, written out. */
  lemma AddPropertySqlSpelled()
    ensures AddPropertySql ==
      "INSERT INTO properties ("
      + ("owner_id" + ", " + "title" + ", " + "description" + ", " + "thumbnail_photo_url" + ", " + "cover_photo_url" + ", " + "cost_per_night" + ", " + "street" + ", " + "city" + ", " + "province" + ", " + "post_code" + ", " + "country" + ", " + "parking_spaces" + ", " + "number_of_bathrooms" + ", " + "number_of_bedrooms")
      + ") VALUES("
      + ("$1" + ", $" + "2" + ", $" + "3" + ", $" + "4" + ", $" + "5" + ", $" + "6" + ", $" + "7" + ", $" + "8" + ", $" + "9" + ", $" + "10" + ", $" + "11" + ", $" + "12" + ", $" + "13" + ", $" + "14")
      + ")  RETURNING *;"
  {
    PropertyJoin();
    FourteenPlaceholders();
  }

  lemma UserJoin()
    ensures CommaJoin(UserColumns) == "name" + ", " + "email" + ", " + "password"
  {
  }

  lemma ThreePlaceholders()
    ensures PlaceholderList(3) == "$1" + ", $" + "2" + ", $" + "3"
  {
  }

  lemma PropertyJoin()
    ensures CommaJoin(PropertyColumns) == "owner_id" + ", " + "title" + ", " + "description" + ", " + "thumbnail_photo_url" + ", " + "cover_photo_url" + ", " + "cost_per_night" + ", " + "street" + ", " + "city" + ", " + "province" + ", " + "post_code" + ", " + "country" + ", " + "parking_spaces" + ", " + "number_of_bathrooms" + ", " + "number_of_bedrooms"
  {
    JoinFourteen(PropertyColumns);
  }

  /** Joining one more name adds `, ` and that name. */
  lemma JoinSnoc(cs: seq<string>, k: nat)
    requires 1 <= k < |cs|
    ensures CommaJoin(cs[..k + 1]) == CommaJoin(cs[..k]) + ", " + cs[k]
  {
    assert cs[..k + 1][..k] == cs[..k];
  }

  /** Any fourteen names join into the names separated by `, `. */
  lemma JoinFourteen(cs: seq<string>)
    requires |cs| == 14
    ensures CommaJoin(cs) == cs[0] + ", " + cs[1] + ", " + cs[2] + ", " + cs[3] + ", " + cs[4] + ", " + cs[5] + ", " + cs[6] + ", " + cs[7] + ", " + cs[8] + ", " + cs[9] + ", " + cs[10] + ", " + cs[11] + ", " + cs[12] + ", " + cs[13]
  {
    assert cs[..1] == [cs[0]];
    JoinSnoc(cs, 1);
    JoinSnoc(cs, 2);
    JoinSnoc(cs, 3);
    JoinSnoc(cs, 4);
    JoinSnoc(cs, 5);
    JoinSnoc(cs, 6);
    JoinSnoc(cs, 7);
    JoinSnoc(cs, 8);
    JoinSnoc(cs, 9);
    JoinSnoc(cs, 10);
    JoinSnoc(cs, 11);
    JoinSnoc(cs, 12);
    JoinSnoc(cs, 13);
    assert cs[..14] == cs;
  }

  lemma FourteenPlaceholders()
    ensures PlaceholderList(14) == "$1" + ", $" + "2" + ", $" + "3" + ", $" + "4" + ", $" + "5" + ", $" + "6" + ", $" + "7" + ", $" + "8" + ", $" + "9" + ", $" + "10" + ", $" + "11" + ", $" + "12" + ", $" + "13" + ", $" + "14"
  {
    FourteenUnfolded();
    SmallNumerals();
    TwoDigitNumerals();
  }

  lemma FourteenUnfolded()
    ensures PlaceholderList(14) == "$1" + ", $" + NatToString(2) + ", $" + NatToString(3) + ", $" + NatToString(4) + ", $" + NatToString(5) + ", $" + NatToString(6) + ", $" + NatToString(7) + ", $" + NatToString(8) + ", $" + NatToString(9) + ", $" + NatToString(10) + ", $" + NatToString(11) + ", $" + NatToString(12) + ", $" + NatToString(13) + ", $" + NatToString(14)
  {
  }

  lemma SmallNumerals()
    ensures NatToString(2) == "2" && NatToString(3) == "3" && NatToString(4) == "4"
    ensures NatToString(5) == "5" && NatToString(6) == "6" && NatToString(7) == "7"
    ensures NatToString(8) == "8" && NatToString(9) == "9"
  {
  }

  lemma TwoDigitNumerals()
    ensures NatToString(10) == "10" && NatToString(11) == "11" && NatToString(12) == "12"
    ensures NatToString(13) == "13" && NatToString(14) == "14"
  {
  }
}
