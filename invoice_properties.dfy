/** What the invoice parsers promise: which lines credit which order, what
    the map holds, which invoice number is reported, and what the quantity
    patterns read out of a line. */
module InvoiceProperties {
  import opened Text
  import opened OrderMaps
  import opened Invoice

  // ----- anchors -----

  /** `re.search` finds the leftmost anchor: the result is absent exactly
      when no position matches, and otherwise it is the match at some
      position with no match before it. */
  lemma AnchorSpec(layout: Layout, line: string)
    ensures Anchor(layout, line) == None <==> forall q :: 0 <= q <= |line| ==> AnchorAt(layout, line, q) == None
    ensures Anchor(layout, line).Some? ==>
      exists q :: 0 <= q <= |line| && AnchorAt(layout, line, q) == Anchor(layout, line)
        && (forall r :: 0 <= r < q ==> AnchorAt(layout, line, r) == None)
  {
    var ms := AnchorMatches(layout, line);
    FirstFromSpec(ms, 0);
    assert forall q :: 0 <= q <= |line| ==> ms[q] == AnchorAt(layout, line, q);
  }

  /** An anchor is always a 7-digit order number. */
  lemma AnchorIsOrderNumber(layout: Layout, line: string)
    ensures Anchor(layout, line).Some? ==> IsOrderNumber(Anchor(layout, line).value)
  {
    AnchorSpec(layout, line);
  }

  // ----- the nearest anchor below a line -----

  /** The current order when the reverse scan reaches line `i - 1` is the
      anchor of the first anchor line at or after `i`; there is none
      exactly when no line from `i` on is an anchor line. */
  lemma {:induction false} NearestSpec(rs: seq<Reading>, i: nat)
    requires i <= |rs|
    ensures Nearest(rs, i) == None <==> forall j :: i <= j < |rs| ==> rs[j].anchor == None
    ensures Nearest(rs, i).Some? ==>
      exists j :: i <= j < |rs| && rs[j].anchor == Nearest(rs, i)
        && (forall l :: i <= l < j ==> rs[l].anchor == None)
    decreases |rs| - i
  {
    if i < |rs| && rs[i].anchor.None? {
      NearestSpec(rs, i + 1);
      if Nearest(rs, i).Some? {
        var j :| i + 1 <= j < |rs| && rs[j].anchor == Nearest(rs, i)
          && (forall l :: i + 1 <= l < j ==> rs[l].anchor == None);
        assert forall l :: i <= l < j ==> rs[l].anchor == None;
      }
    }
  }

  /** Line `l` is the nearest anchor line below line `j`. */
  ghost predicate NearestBelow(rs: seq<Reading>, j: nat, l: nat) {
    j < l < |rs| && rs[l].anchor.Some?
    && forall x :: j < x < l ==> rs[x].anchor == None
  }

  /** Line `j` is not an anchor line and the nearest anchor line below it
      anchors order `k`. */
  ghost predicate CreditsTo(rs: seq<Reading>, j: nat, k: string)
    requires j < |rs|
  {
    rs[j].anchor == None && exists l: nat :: NearestBelow(rs, j, l) && rs[l].anchor == Some(k)
  }

  lemma NearestIsBelow(rs: seq<Reading>, j: nat, k: string)
    requires j < |rs|
    ensures Nearest(rs, j + 1) == Some(k) <==> exists l: nat :: NearestBelow(rs, j, l) && rs[l].anchor == Some(k)
  {
    NearestSpec(rs, j + 1);
    if exists l: nat :: NearestBelow(rs, j, l) && rs[l].anchor == Some(k) {
      var l: nat :| NearestBelow(rs, j, l) && rs[l].anchor == Some(k);
      if Nearest(rs, j + 1).Some? {
        var l' :| j + 1 <= l' < |rs| && rs[l'].anchor == Nearest(rs, j + 1)
          && (forall x :: j + 1 <= x < l' ==> rs[x].anchor == None);
        assert !(l < l') && !(l' < l);
      }
    }
  }

  /** Reference definition: what lines `i..` of a page add to order `k`,
      the quantities of every line that credits `k`. */
  ghost function PageSum(rs: seq<Reading>, i: nat, k: string): int
    requires i <= |rs|
    decreases |rs| - i
  {
    if i == |rs| then 0
    else
      var here := if CreditsTo(rs, i, k) then Sum(rs[i].quantities) else 0;
      here + PageSum(rs, i + 1, k)
  }

  lemma {:induction false} ScanSum(m: OrderMap, rs: seq<Reading>, i: nat, k: string)
    requires i <= |rs|
    ensures Get(Scan(m, rs, i), k) == Get(m, k) + PageSum(rs, i, k)
    decreases |rs| - i
  {
    if i < |rs| {
      ScanSum(m, rs, i + 1, k);
      NearestIsBelow(rs, i, k);
      if rs[i].anchor.None? && Nearest(rs, i + 1).Some? {
        AddAllSum(Scan(m, rs, i + 1), Nearest(rs, i + 1).value, rs[i].quantities);
      }
    }
  }

  /** One step of the scan adds key `k` exactly when line `i` credits a
      non-empty list of quantities to it. */
  lemma ScanStepKeys(m: OrderMap, rs: seq<Reading>, i: nat, k: string)
    requires i < |rs|
    ensures k in ScanStep(m, rs, i) <==> k in m || (CreditsTo(rs, i, k) && rs[i].quantities != [])
  {
    NearestIsBelow(rs, i, k);
    if rs[i].anchor.None? && Nearest(rs, i + 1).Some? {
      AddAllSum(m, Nearest(rs, i + 1).value, rs[i].quantities);
    }
  }

  lemma {:induction false} ScanKeys(m: OrderMap, rs: seq<Reading>, i: nat, k: string)
    requires i <= |rs|
    ensures k in Scan(m, rs, i) <==>
      k in m || exists j :: i <= j < |rs| && CreditsTo(rs, j, k) && rs[j].quantities != []
    decreases |rs| - i
  {
    if i < |rs| {
      ScanKeys(m, rs, i + 1, k);
      ScanStepKeys(Scan(m, rs, i + 1), rs, i, k);
      if exists j :: i <= j < |rs| && CreditsTo(rs, j, k) && rs[j].quantities != [] {
        var j :| i <= j < |rs| && CreditsTo(rs, j, k) && rs[j].quantities != [];
        assert j == i || (i + 1 <= j < |rs| && CreditsTo(rs, j, k) && rs[j].quantities != []);
      }
    }
  }

  /** Attribution on a page: each quantity goes to the order of the nearest
      anchor line below its own line, sums add up, anchor lines and lines
      with no anchor below them credit nothing, and an order enters the map
      only through a line that credits at least one quantity to it. */
  lemma ScanAttribution(m: OrderMap, rs: seq<Reading>, i: nat, k: string)
    requires i <= |rs|
    ensures Get(Scan(m, rs, i), k) == Get(m, k) + PageSum(rs, i, k)
    ensures k in Scan(m, rs, i) <==>
      k in m || exists j :: i <= j < |rs| && CreditsTo(rs, j, k) && rs[j].quantities != []
  {
    ScanSum(m, rs, i, k);
    ScanKeys(m, rs, i, k);
  }

  // ----- shape of the map -----

  predicate IsGroupChar(c: char) {
    IsDigit(c) || IsGroupSeparator(c)
  }

  /** The text of a grouped match: it starts with a digit and holds only
      digits and group separators. */
  predicate IsGroupText(g: string) {
    g != [] && IsDigit(g[0]) && forall i :: 0 <= i < |g| ==> IsGroupChar(g[i])
  }

  lemma {:induction false} GroupsEndChars(s: string, q: nat)
    requires q <= |s|
    ensures forall i :: q <= i < GroupsEnd(s, q) ==> IsGroupChar(s[i])
    decreases |s| - q
  {
    if q < |s| && IsGroupSeparator(s[q]) && ThreeDigitsAt(s, q + 1) {
      GroupsEndChars(s, q + 4);
    } else if ThreeDigitsAt(s, q) {
      GroupsEndChars(s, q + 3);
    }
  }

  lemma GroupedMatchText(s: string, p: nat)
    requires p < |s| && IsDigit(s[p])
    ensures IsGroupText(GroupedMatchAt(s, p).group)
  {
    GroupsEndChars(s, LeadEnd(s, p));
  }

  /** Stripping the separators from group text leaves its digits. */
  lemma {:induction false} NormalizeDigits(g: string)
    requires forall i :: 0 <= i < |g| ==> IsGroupChar(g[i])
    ensures Normalize(g) == DigitsOf(g)
    decreases |g|
  {
    if g != [] {
      NormalizeDigits(g[1..]);
    }
  }

  /** The digits of `s`, in order. */
  function DigitsOf(s: string): (r: string)
    ensures forall i :: 0 <= i < |r| ==> IsDigit(r[i])
    decreases |s|
  {
    if s == [] then [] else (if IsDigit(s[0]) then [s[0]] else []) + DigitsOf(s[1..])
  }

  lemma {:induction false} DigitsOfAppend(a: string, b: string)
    ensures DigitsOf(a + b) == DigitsOf(a) + DigitsOf(b)
    decreases |a|
  {
    if a != [] {
      assert (a + b)[1..] == a[1..] + b;
      DigitsOfAppend(a[1..], b);
    } else {
      assert a + b == b;
    }
  }

  /** A captured group normalises to digits, so `int` raises on it only
      past the digit limit, and its value is never negative. */
  lemma GroupTextQuantity(g: string)
    requires IsGroupText(g)
    ensures IsDigits(Normalize(g))
    ensures ParseInt(Normalize(g)) ==
      if |Normalize(g)| <= MaxStrDigits then Some(DigitsValue(Normalize(g)) as int) else None
  {
    NormalizeDigits(g);
    assert DigitsOf(g) == [g[0]] + DigitsOf(g[1..]);
    ParseIntDigits(Normalize(g));
  }

  /** Every group `findall` returns in the grouped layout is group text. */
  lemma {:induction false} GroupedFindAllText(s: string, p: nat)
    requires p <= |s|
    ensures forall i :: 0 <= i < |GroupedFindAll(s, p)| ==> IsGroupText(GroupedFindAll(s, p)[i])
    decreases |s| - p
  {
    if p < |s| {
      if IsDigit(s[p]) {
        GroupedMatchText(s, p);
        GroupedFindAllText(s, GroupedMatchAt(s, p).end);
      } else {
        GroupedFindAllText(s, p + 1);
      }
    }
  }

  lemma {:induction false} GroupedQuantitiesOfText(gs: seq<string>)
    requires forall i :: 0 <= i < |gs| ==> IsGroupText(gs[i])
    ensures |GroupedQuantities(gs)| <= |gs|
    ensures (forall i :: 0 <= i < |gs| ==> |Normalize(gs[i])| <= MaxStrDigits) ==> |GroupedQuantities(gs)| == |gs|
    ensures AllNonNegative(GroupedQuantities(gs))
    decreases |gs|
  {
    if gs != [] {
      GroupedQuantitiesOfText(gs[..|gs| - 1]);
      GroupTextQuantity(gs[|gs| - 1]);
    }
  }

  /** The normalised groups, one after the other. */
  function NormalizedAll(gs: seq<string>): string
    decreases |gs|
  {
    if gs == [] then [] else Normalize(gs[0]) + NormalizedAll(gs[1..])
  }

  lemma {:induction false} NoDigitsOf(t: string)
    requires forall i :: 0 <= i < |t| ==> !IsDigit(t[i])
    ensures DigitsOf(t) == []
    decreases |t|
  {
    if t != [] {
      NoDigitsOf(t[1..]);
    }
  }

  /** What follows a group, the whitespace and the unit, holds no digit. */
  lemma UnitEndNoDigits(s: string, q: nat)
    requires q <= |s|
    ensures forall i :: q <= i < UnitEnd(s, q) ==> !IsDigit(s[i])
  {
    var t := SpaceRunEnd(s, q);
    SpaceRunEndSpec(s, q);
    var w := if LiteralAt(s, t, "pcs") then "pcs"
      else if LiteralAt(s, t, "stk") then "stk"
      else if LiteralAt(s, t, "st") then "st"
      else if LiteralAt(s, t, "szt") then "szt"
      else "";
    assert UnitEnd(s, q) == t + |w| && LiteralAt(s, t, w);
    forall i | t <= i < t + |w| ensures !IsDigit(s[i]) {
      assert s[i] == w[i - t];
    }
  }

  lemma UnitDigits(s: string, e: nat)
    requires e <= |s|
    ensures DigitsOf(s[e..UnitEnd(s, e)]) == []
  {
    UnitEndNoDigits(s, e);
    var t := s[e..UnitEnd(s, e)];
    forall i | 0 <= i < |t| ensures !IsDigit(t[i]) {
      assert t[i] == s[e + i];
    }
    NoDigitsOf(t);
  }

  lemma DigitsSplit(g: string, u: string, r: string)
    requires forall i :: 0 <= i < |g| ==> IsGroupChar(g[i])
    requires DigitsOf(u) == []
    ensures DigitsOf(g + (u + r)) == Normalize(g) + DigitsOf(r)
  {
    NormalizeDigits(g);
    DigitsOfAppend(u, r);
    assert DigitsOf(u + r) == DigitsOf(r) by {
      assert DigitsOf(u) + DigitsOf(r) == DigitsOf(r);
    }
    DigitsOfAppend(g, u + r);
  }

  /** At a digit, the digits from there on are those of the group the
      pattern captures followed by those after the match. */
  lemma GroupedMatchDigits(s: string, p: nat)
    requires p < |s| && IsDigit(s[p])
    ensures DigitsOf(s[p..]) == Normalize(GroupedMatchAt(s, p).group) + DigitsOf(s[GroupedMatchAt(s, p).end..])
  {
    var e := GroupsEnd(s, LeadEnd(s, p));
    var m := GroupedMatchAt(s, p);
    assert m.group == s[p..e] && m.end == UnitEnd(s, e);
    GroupedMatchText(s, p);
    UnitDigits(s, e);
    assert s[p..] == m.group + (s[e..m.end] + s[m.end..]);
    DigitsSplit(m.group, s[e..m.end], s[m.end..]);
  }

  /** No digit of a line is lost or read twice by the grouped pattern: the
      groups `findall` returns, with their separators stripped, spell out
      exactly the digits of the line in order. */
  lemma {:induction false} GroupedFindAllDigits(s: string, p: nat)
    requires p <= |s|
    ensures NormalizedAll(GroupedFindAll(s, p)) == DigitsOf(s[p..])
    decreases |s| - p
  {
    if p == |s| {
      assert s[p..] == [];
    } else if IsDigit(s[p]) {
      var m := GroupedMatchAt(s, p);
      GroupedMatchDigits(s, p);
      GroupedFindAllDigits(s, m.end);
      assert GroupedFindAll(s, p) == [m.group] + GroupedFindAll(s, m.end);
    } else {
      GroupedFindAllDigits(s, p + 1);
      assert s[p..][1..] == s[p + 1..];
    }
  }

  /** `\d+([.,]\d*)?`: a digit run, then optionally a `.` or `,` and
      another digit run. `float` reads such a numeral once `,` is replaced
      by `.`, and `int` keeps the part before the separator. */
  predicate IsPiecesNumeral(g: string) {
    var a := DigitRunEnd(g, 0);
    0 < a && (a == |g| || ((g[a] == '.' || g[a] == ',') && forall i :: a < i < |g| ==> IsDigit(g[i])))
  }

  /** A digit run ending at `e` is the one `DigitRunEnd` measures. */
  lemma {:induction false} DigitRunEndUnique(s: string, p: nat, e: nat)
    requires p <= e <= |s|
    requires forall i :: p <= i < e ==> IsDigit(s[i])
    requires e == |s| || !IsDigit(s[e])
    ensures DigitRunEnd(s, p) == e
    decreases e - p
  {
    if p < e {
      DigitRunEndUnique(s, p + 1, e);
    }
  }

  lemma PiecesMatchText(s: string, p: nat)
    requires p < |s|
    ensures PiecesMatchAt(s, p).Some? ==> IsPiecesNumeral(PiecesMatchAt(s, p).value.group)
  {
    if PiecesMatchAt(s, p).Some? {
      var a := DigitRunEnd(s, p);
      var b := if a < |s| && (s[a] == '.' || s[a] == ',') then DigitRunEnd(s, a + 1) else a;
      var g := s[p..b];
      assert g == PiecesMatchAt(s, p).value.group;
      DigitRunEndSpec(s, p);
      if b > a {
        DigitRunEndSpec(s, a + 1);
      }
      DigitRunEndUnique(g, 0, a - p);
    }
  }

  /** Every group `findall` returns in the pieces layout is such a numeral,
      so `int(float(...))` never raises on it. */
  lemma {:induction false} PiecesFindAllText(s: string, p: nat)
    requires p <= |s|
    ensures forall i :: 0 <= i < |PiecesFindAll(s, p)| ==> IsPiecesNumeral(PiecesFindAll(s, p)[i])
    decreases |s| - p
  {
    if p < |s| {
      PiecesMatchText(s, p);
      match PiecesMatchAt(s, p)
      case Some(m) =>
        if p < m.end <= |s| {
          PiecesFindAllText(s, m.end);
        }
      case None => PiecesFindAllText(s, p + 1);
    }
  }

  lemma {:induction false} PiecesQuantitiesNonNegative(gs: seq<string>)
    ensures |PiecesQuantities(gs)| == |gs|
    ensures AllNonNegative(PiecesQuantities(gs))
    decreases |gs|
  {
    if gs != [] {
      PiecesQuantitiesNonNegative(gs[..|gs| - 1]);
    }
  }

  /** Quantities read off a line are never negative: neither pattern
      captures a sign. */
  lemma LineQuantitiesNonNegative(layout: Layout, line: string)
    ensures AllNonNegative(LineQuantities(layout, line))
  {
    match layout
    case Pieces => PiecesQuantitiesNonNegative(PiecesFindAll(line, 0));
    case Grouped =>
      GroupedFindAllText(line, 0);
      GroupedQuantitiesOfText(GroupedFindAll(line, 0));
  }

  /** What a line reading can hold: an order number as anchor and
      quantities that are never negative. */
  predicate Sound(r: Reading) {
    (r.anchor.Some? ==> IsOrderNumber(r.anchor.value)) && AllNonNegative(r.quantities)
  }

  lemma ReadLineSound(layout: Layout, line: string)
    ensures Sound(ReadLine(layout, line))
  {
    AnchorIsOrderNumber(layout, line);
    LineQuantitiesNonNegative(layout, line);
  }

  lemma ReadPageSound(layout: Layout, lines: seq<string>)
    ensures forall j :: 0 <= j < |lines| ==> Sound(ReadPage(layout, lines)[j])
  {
    forall j | 0 <= j < |lines| ensures Sound(ReadPage(layout, lines)[j]) {
      ReadPageAt(layout, lines, j);
      ReadLineSound(layout, lines[j]);
    }
  }

  lemma {:induction false} ScanShape(m: OrderMap, rs: seq<Reading>, i: nat)
    requires i <= |rs| && WellFormed(m)
    requires forall j :: 0 <= j < |rs| ==> Sound(rs[j])
    ensures WellFormed(Scan(m, rs, i))
    decreases |rs| - i
  {
    if i < |rs| {
      var before := Scan(m, rs, i + 1);
      ScanShape(m, rs, i + 1);
      if rs[i].anchor.None? && Nearest(rs, i + 1).Some? {
        var k := Nearest(rs, i + 1).value;
        NearestSpec(rs, i + 1);
        AddAllSum(before, k, rs[i].quantities);
        SumNonNegative(rs[i].quantities);
      }
    }
  }

  /** Invoice maps hold only 7-digit order numbers, with quantities that
      are never negative. */
  lemma {:induction false} InvoiceShape(layout: Layout, pages: seq<string>)
    ensures WellFormed(InvoiceOrders(layout, pages))
    decreases |pages|
  {
    if pages != [] {
      var lines := PageLines(pages[|pages| - 1]);
      InvoiceShape(layout, pages[..|pages| - 1]);
      ReadPageSound(layout, lines);
      ScanShape(InvoiceOrders(layout, pages[..|pages| - 1]), ReadPage(layout, lines), 0);
    }
  }

  // ----- pages -----

  /** Reference definition: what the pages add to order `k`, page by page;
      each page only through its own anchors. */
  ghost function DocumentSum(layout: Layout, pages: seq<string>, k: string): int
    decreases |pages|
  {
    if pages == [] then 0
    else DocumentSum(layout, pages[..|pages| - 1], k) + PageSum(ReadPage(layout, PageLines(pages[|pages| - 1])), 0, k)
  }

  /** Every page is read on its own: an order's total is the sum over the
      pages of what each page credits to it, and an anchor never carries
      over to the page before it. */
  lemma {:induction false} InvoiceAttribution(layout: Layout, pages: seq<string>, k: string)
    ensures Get(InvoiceOrders(layout, pages), k) == DocumentSum(layout, pages, k)
    decreases |pages|
  {
    if pages != [] {
      InvoiceAttribution(layout, pages[..|pages| - 1], k);
      ScanAttribution(InvoiceOrders(layout, pages[..|pages| - 1]), ReadPage(layout, PageLines(pages[|pages| - 1])), 0, k);
    }
  }

  /** Some line of `page` credits at least one quantity to order `k`,
      through the page's own anchors. */
  ghost predicate PageCredits(layout: Layout, page: string, k: string) {
    var rs := ReadPage(layout, PageLines(page));
    exists j :: 0 <= j < |rs| && CreditsTo(rs, j, k) && rs[j].quantities != []
  }

  /** One page adds order `k` exactly when it credits `k` a quantity. */
  lemma PageKeys(layout: Layout, m: OrderMap, page: string, k: string)
    ensures k in PageOrders(layout, m, PageLines(page)) <==> k in m || PageCredits(layout, page, k)
  {
    ScanKeys(m, ReadPage(layout, PageLines(page)), 0, k);
  }

  /** For each page, whether it credits order `k` a quantity. */
  ghost function PageFlags(layout: Layout, pages: seq<string>, k: string): (fs: seq<bool>)
    ensures |fs| == |pages|
    decreases |pages|
  {
    if pages == [] then []
    else PageFlags(layout, pages[..|pages| - 1], k) + [PageCredits(layout, pages[|pages| - 1], k)]
  }

  lemma {:induction false} PageFlagsAt(layout: Layout, pages: seq<string>, k: string, p: nat)
    requires p < |pages|
    ensures PageFlags(layout, pages, k)[p] == PageCredits(layout, pages[p], k)
    decreases |pages|
  {
    if p < |pages| - 1 {
      PageFlagsAt(layout, pages[..|pages| - 1], k, p);
    }
  }

  lemma {:induction false} InvoiceKeyFlags(layout: Layout, pages: seq<string>, k: string)
    ensures k in InvoiceOrders(layout, pages) <==> true in PageFlags(layout, pages, k)
    decreases |pages|
  {
    if pages != [] {
      var init := pages[..|pages| - 1];
      InvoiceKeyFlags(layout, init, k);
      PageKeys(layout, InvoiceOrders(layout, init), pages[|pages| - 1], k);
    }
  }

  /** An order is on the invoice exactly when some page credits it at least
      one quantity through its own anchors; a quantity with no anchor below
      it on its page adds no order. */
  lemma InvoiceKeys(layout: Layout, pages: seq<string>, k: string)
    ensures k in InvoiceOrders(layout, pages) <==> exists p :: 0 <= p < |pages| && PageCredits(layout, pages[p], k)
  {
    InvoiceKeyFlags(layout, pages, k);
    var fs := PageFlags(layout, pages, k);
    if true in fs {
      var p :| 0 <= p < |fs| && fs[p];
      PageFlagsAt(layout, pages, k, p);
    }
    if exists p :: 0 <= p < |pages| && PageCredits(layout, pages[p], k) {
      var p :| 0 <= p < |pages| && PageCredits(layout, pages[p], k);
      PageFlagsAt(layout, pages, k, p);
      assert fs[p];
    }
  }

  // ----- invoice number -----

  /** An invoice number: non-empty, ASCII word characters and `-` only. */
  predicate IsInvoiceNumber(v: string) {
    v != [] && forall i :: 0 <= i < |v| ==> IsWordOrDash(v[i])
  }

  lemma {:induction false} WordRunEndSpec(s: string, p: nat)
    requires p <= |s|
    ensures forall i :: p <= i < WordRunEnd(s, p) ==> IsWordOrDash(s[i])
    decreases |s| - p
  {
    if p < |s| && IsWordOrDash(s[p]) {
      WordRunEndSpec(s, p + 1);
    }
  }

  lemma InvoiceIdAtShape(s: string, p: nat)
    requires p <= |s|
    ensures InvoiceIdAt(s, p).Some? ==> IsInvoiceNumber(InvoiceIdAt(s, p).value)
  {
    if FoldedAt(s, p, "fakturanr") {
      WordRunEndSpec(s, IdSeparatorRunEnd(s, p + 9));
    } else if FoldedAt(s, p, "fakturanummer") {
      WordRunEndSpec(s, IdSeparatorRunEnd(s, p + 13));
    }
  }

  /** `re.search` finds the leftmost invoice number: the result is absent
      exactly when no position matches, and otherwise it is the match at
      some position with no match before it. */
  lemma InvoiceIdSpec(line: string)
    ensures InvoiceIdIn(line) == None <==> forall q :: 0 <= q <= |line| ==> InvoiceIdAt(line, q) == None
    ensures InvoiceIdIn(line).Some? ==>
      exists q :: 0 <= q <= |line| && InvoiceIdAt(line, q) == InvoiceIdIn(line)
        && (forall r :: 0 <= r < q ==> InvoiceIdAt(line, r) == None)
  {
    var ms := IdMatches(line);
    FirstFromSpec(ms, 0);
    assert forall q :: 0 <= q <= |line| ==> ms[q] == InvoiceIdAt(line, q);
  }

  /** A number found in a line is non-empty and made of word characters
      and `-`. */
  lemma InvoiceIdShape(line: string)
    ensures InvoiceIdIn(line).Some? ==> IsInvoiceNumber(InvoiceIdIn(line).value)
  {
    InvoiceIdSpec(line);
    if InvoiceIdIn(line).Some? {
      var q :| 0 <= q <= |line| && InvoiceIdAt(line, q) == InvoiceIdIn(line);
      InvoiceIdAtShape(line, q);
    }
  }

  /** Every line of every page, in order. */
  function AllLines(pages: seq<string>): seq<string>
    decreases |pages|
  {
    if pages == [] then [] else AllLines(pages[..|pages| - 1]) + PageLines(pages[|pages| - 1])
  }

  lemma {:induction false} LineIdsAppend(a: seq<string>, b: seq<string>)
    ensures LineIds(a + b) == LineIds(a) + LineIds(b)
    decreases |b|
  {
    if b == [] {
      assert a + b == a;
    } else {
      assert (a + b)[..|a + b| - 1] == a + b[..|b| - 1];
      LineIdsAppend(a, b[..|b| - 1]);
    }
  }

  /** The number survives page breaks: the invoice number of a document is
      what the line-by-line overwriting gives over all lines of all pages. */
  lemma {:induction false} InvoiceIdLastLine(pages: seq<string>)
    ensures InvoiceId(pages) == LastFound(LineIds(AllLines(pages)), "")
    decreases |pages|
  {
    if pages != [] {
      var init, lines := AllLines(pages[..|pages| - 1]), PageLines(pages[|pages| - 1]);
      InvoiceIdLastLine(pages[..|pages| - 1]);
      LineIdsAppend(init, lines);
      LastFoundAppend(LineIds(init), LineIds(lines), "");
    }
  }

  /** The report is filed under `Faktura` when no line of the document
      carries an invoice number, and otherwise under the number found on
      the last line, over all pages, that carries one. */
  lemma ReportIdOfDocument(pages: seq<string>)
    ensures var lines := AllLines(pages);
      (forall j :: 0 <= j < |lines| ==> InvoiceIdIn(lines[j]) == None) ==> ReportId(InvoiceId(pages)) == "Faktura"
    ensures forall j :: IsLastPresent(LineIds(AllLines(pages)), j) ==>
      ReportId(InvoiceId(pages)) == LineIds(AllLines(pages))[j].value
  {
    var lines := AllLines(pages);
    var ids := LineIds(lines);
    InvoiceIdLastLine(pages);
    LastFoundSpec(ids, "");
    forall j | 0 <= j < |lines| ensures ids[j] == InvoiceIdIn(lines[j]) {
      LineIdsAt(lines, j);
    }
    forall j | 0 <= j < |lines| && InvoiceIdIn(lines[j]).Some?
      ensures InvoiceIdIn(lines[j]).value != ""
    {
      InvoiceIdShape(lines[j]);
    }
  }
}
