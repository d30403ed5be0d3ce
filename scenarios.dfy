/** Concrete lines and pages, worked through the model. */
module Scenarios {
  import opened Text
  import opened OrderMaps
  import opened Invoice
  import opened Confirmation

  /** Grouped layout: a fourth digit that does not complete a group of
      three starts a quantity of its own. */
  lemma GroupedSplitsFourDigits()
    ensures GroupedFindAll("1234", 0) == ["123", "4"]
  {
    var s := "1234";
    assert LeadEnd(s, 0) == 3;
    assert GroupsEnd(s, 3) == 3;
    assert SpaceRunEnd(s, 3) == 3;
    assert UnitEnd(s, 3) == 3;
    assert LeadEnd(s, 3) == 4;
    assert GroupsEnd(s, 4) == 4;
    assert SpaceRunEnd(s, 4) == 4;
    assert UnitEnd(s, 4) == 4;
    assert GroupedFindAll(s, 4) == [];
    assert s[0..3] == "123" && s[3..4] == "4";
  }

  lemma GroupedThousandsMatch()
    ensures GroupedFindAll("1.234", 0) == ["1.234"]
  {
    var s := "1.234";
    assert LeadEnd(s, 0) == 1;
    assert IsGroupSeparator(s[1]) && ThreeDigitsAt(s, 2);
    assert GroupsEnd(s, 5) == 5;
    assert GroupsEnd(s, 1) == 5;
    assert SpaceRunEnd(s, 5) == 5;
    assert UnitEnd(s, 5) == 5;
    assert GroupedFindAll(s, 5) == [];
    assert s[0..5] == s;
  }

  lemma NormalizeThousands()
    ensures Normalize("1.234") == "1234"
  {
    var g := "1.234";
    assert g[1..] == ".234" && ".234"[1..] == "234" && "234"[1..] == "34" && "34"[1..] == "4" && "4"[1..] == "";
    assert Normalize("4") == "4";
    assert Normalize("34") == "34";
    assert Normalize("234") == "234";
    assert Normalize(".234") == "234";
  }

  lemma ThousandValue()
    ensures DigitsValue("1234") == 1234
  {
    assert "1"[..0] == "";
    assert DigitsValue("1") == 1;
    assert "12"[..1] == "1";
    assert DigitsValue("12") == 12;
    assert "123"[..2] == "12";
    assert DigitsValue("123") == 123;
    assert "1234"[..3] == "123";
  }

  lemma ThousandDigits()
    ensures IsDigits("1234")
  {
  }

  lemma GroupedThousandsValue()
    ensures ParseInt(Normalize("1.234")) == Some(1234)
  {
    NormalizeThousands();
    ThousandDigits();
    ThousandValue();
  }

  /** Grouped layout: a `.` between groups of three is a thousands
      separator, so `1.234` is the single quantity 1234. */
  lemma GroupedReadsThousands()
    ensures LineQuantities(Grouped, "1.234") == [1234]
  {
    GroupedThousandsMatch();
    GroupedThousandsValue();
    assert ["1.234"][..0] == [];
  }

  lemma ThousandsMatches()
    ensures PiecesMatchAt("1.234,5 pcs", 0) == None
    ensures PiecesMatchAt("1.234,5 pcs", 1) == None
    ensures PiecesMatchAt("1.234,5 pcs", 2) == Some(Match("234,5", 11))
  {
    var s := "1.234,5 pcs";
    assert DigitRunEnd(s, 0) == 1;
    assert DigitRunEnd(s, 2) == 5;
    assert SpaceRunEnd(s, 5) == 5;
    assert !FoldsTo(s[5 + 0], "pcs"[0]);
    assert DigitRunEnd(s, 6) == 7;
    assert SpaceRunEnd(s, 7) == 8;
    assert FoldedAt(s, 8, "pcs");
    assert s[2..7] == "234,5";
  }

  lemma ThousandsFindAll()
    ensures PiecesFindAll("1.234,5 pcs", 0) == ["234,5"]
  {
    var s := "1.234,5 pcs";
    ThousandsMatches();
    assert PiecesFindAll(s, 11) == [];
    assert PiecesFindAll(s, 2) == ["234,5"];
    assert PiecesFindAll(s, 1) == ["234,5"];
  }

  lemma ThousandsQuantity()
    ensures PiecesQuantity("234,5") == 234
  {
    var g := "234,5";
    assert DigitRunEnd(g, 0) == 3;
    assert g[..3] == "234";
    assert "234"[..2] == "23" && "23"[..1] == "2" && "2"[..0] == "";
  }

  /** Pieces layout: the pattern has no thousands separator, so in
      `1.234,5 pcs` the match starts after the `.` and the quantity is 234. */
  lemma PiecesDropsThousands()
    ensures PiecesQuantities(PiecesFindAll("1.234,5 pcs", 0)) == [234]
  {
    ThousandsFindAll();
    ThousandsQuantity();
    assert ["234,5"][..0] == [];
  }

  lemma OrderLineAnchor()
    ensures Anchor(Pieces, "Order: 1234567") == Some("1234567")
  {
    var s := "Order: 1234567";
    assert LiteralAt(s, 0, "Order");
    assert SpaceRunEnd(s, 6) == 7;
    assert s[7..14] == "1234567";
    assert AnchorMatches(Pieces, s)[0] == Some("1234567");
  }

  lemma SpacedAnchorAt(q: nat)
    requires q <= 14
    ensures AnchorAt(Pieces, "Order :1234567", q) == None
  {
    var s := "Order :1234567";
    if q == 0 {
      assert LiteralAt(s, 0, "Order");
      assert SpaceRunEnd(s, 5) == 6;
      assert !IsDigit(s[6]);
      assert !IsDigits(s[6..13]) by {
        assert s[6..13][0] == s[6];
      }
    } else {
      assert !LiteralAt(s, q, "Order") by {
        if q + 5 <= 14 {
          assert s[q + 0] != "Order"[0];
        }
      }
    }
  }

  /** The pieces anchor allows whitespace only after its one optional
      separator, the grouped anchor any mix of the two. */
  lemma SpacedAnchor()
    ensures Anchor(Pieces, "Order :1234567") == None
    ensures Anchor(Grouped, "Order :1234567") == Some("1234567")
  {
    var s := "Order :1234567";
    var ms := AnchorMatches(Pieces, s);
    forall q | 0 <= q <= |s| ensures ms[q] == None {
      SpacedAnchorAt(q);
    }
    FirstFromSpec(ms, 0);
    assert LiteralAt(s, 0, "Order");
    assert SeparatorRunEnd(s, 5) == 7;
    assert s[7..14] == "1234567";
    assert AnchorMatches(Grouped, s)[0] == Some("1234567");
  }

  lemma QuantityLineAnchor()
    ensures Anchor(Pieces, "5 pcs") == None
  {
    var s := "5 pcs";
    var ms := AnchorMatches(Pieces, s);
    forall q | 0 <= q <= |s| ensures ms[q] == None {
      assert !LiteralAt(s, q, "Order") by {
        if q == 0 {
          assert s[0 + 0] != "Order"[0];
        }
      }
    }
    FirstFromSpec(ms, 0);
  }

  lemma QuantityLineQuantities()
    ensures LineQuantities(Pieces, "5 pcs") == [5]
  {
    var s := "5 pcs";
    assert DigitRunEnd(s, 0) == 1;
    assert SpaceRunEnd(s, 1) == 2;
    assert FoldedAt(s, 2, "pcs");
    assert s[0..1] == "5";
    assert PiecesMatchAt(s, 0) == Some(Match("5", 5));
    assert PiecesFindAll(s, 5) == [];
    assert PiecesFindAll(s, 0) == ["5"];
    assert "5"[..DigitRunEnd("5", 0)] == "5";
    assert ["5"][..0] == [];
  }

  /** A quantity printed below its order line is not credited to it: the
      page is read from the bottom up, so only an anchor below a line can
      claim that line's quantities. */
  lemma QuantityBelowAnchorIsLost()
    ensures PageOrders(Pieces, map[], ["Order: 1234567", "5 pcs"]) == map[]
  {
    var lines := ["Order: 1234567", "5 pcs"];
    var rs := ReadPage(Pieces, lines);
    ReadPageAt(Pieces, lines, 0);
    ReadPageAt(Pieces, lines, 1);
    OrderLineAnchor();
    QuantityLineAnchor();
    assert Nearest(rs, 2) == None;
    assert Scan(map[], rs, 1) == map[];
  }

  /** A quantity printed above its order line is credited to it. */
  lemma QuantityAboveAnchorIsCredited()
    ensures PageOrders(Pieces, map[], ["5 pcs", "Order: 1234567"]) == map["1234567" := 5]
  {
    var lines := ["5 pcs", "Order: 1234567"];
    var rs := ReadPage(Pieces, lines);
    ReadPageAt(Pieces, lines, 0);
    ReadPageAt(Pieces, lines, 1);
    OrderLineAnchor();
    QuantityLineAnchor();
    QuantityLineQuantities();
    assert Nearest(rs, 1) == Some("1234567");
    assert Scan(map[], rs, 1) == map[];
    assert rs[0].quantities == [5];
    assert AddAll(map[], "1234567", [5]) == map["1234567" := 5] by {
      assert [5][..0] == [];
    }
  }

  lemma MinusFive()
    ensures ParseInt("-5") == Some(-5)
  {
    var s := "-5";
    assert !IsDigit(s[0]) && s[1..] == "5";
    assert IsDigits("5") && "5"[..0] == "";
  }

  lemma OneLine(line: string, parts: seq<string>, q: int)
    requires Split(line) == parts && |parts| >= 6 && IsDigits(parts[3])
    requires ParseInt(parts[|parts| - 1]) == Some(q)
    ensures PositionalOrders([line]) == map[parts[3] := q]
  {
    assert [line][..0] == [];
  }

  lemma OrderNumberDigits()
    ensures IsDigits("1234567")
  {
  }

  /** Positional layout: `int` accepts a sign, so a line can take a
      quantity away from its order. */
  lemma NegativeQuantity(line: string)
    requires Split(line) == ["10", "Bolt", "M8", "1234567", "st", "-5"]
    ensures PositionalOrders([line]) == map["1234567" := -5]
  {
    var parts := ["10", "Bolt", "M8", "1234567", "st", "-5"];
    MinusFive();
    assert parts[3] == "1234567" && parts[5] == "-5";
    OrderNumberDigits();
    OneLine(line, parts, -5);
  }

  lemma OrderNumberValue()
    ensures DigitsValue("7654321") == 7654321
  {
    assert "7"[..0] == "";
    assert DigitsValue("7") == 7;
    assert "76"[..1] == "7";
    assert DigitsValue("76") == 76;
    assert "765"[..2] == "76";
    assert DigitsValue("765") == 765;
    assert "7654"[..3] == "765";
    assert DigitsValue("7654") == 7654;
    assert "76543"[..4] == "7654";
    assert DigitsValue("76543") == 76543;
    assert "765432"[..5] == "76543";
    assert DigitsValue("765432") == 765432;
    assert "7654321"[..6] == "765432";
  }

  lemma TokenLine(line: string, parts: seq<string>)
    requires Split(line) == parts
    ensures OrderTokenOrders([line]) == TokenLineOrders(map[], parts, |parts|)
  {
    assert [line][..0] == [];
  }

  lemma ChainDigits()
    ensures IsDigits("7654321") && IsDigits("5")
  {
  }

  lemma ChainCredits(parts: seq<string>)
    requires parts == ["1234567", "7654321", "5"]
    ensures TokenCredit(parts, 0) == Some(Credit("1234567", 7654321))
    ensures TokenCredit(parts, 1) == Some(Credit("7654321", 5))
    ensures TokenCredit(parts, 2) == None
  {
    OrderNumberDigits();
    ChainDigits();
    OrderNumberValue();
    assert parts[1..] == ["7654321", "5"] && parts[2..] == ["5"] && parts[3..] == [];
    assert ["7654321", "5"][1..] == ["5"] && ["5"][1..] == [];
    assert DigitsValue("5") == 5 by {
      assert "5"[..0] == "";
    }
  }

  /** Order-token layout: the quantity of an order number is the next
      all-digit token, here the second order number itself. */
  lemma ChainedOrderNumbers(line: string)
    requires Split(line) == ["1234567", "7654321", "5"]
    ensures OrderTokenOrders([line]) == map["1234567" := 7654321, "7654321" := 5]
  {
    var parts := ["1234567", "7654321", "5"];
    TokenLine(line, parts);
    ChainCredits(parts);
  }
}
