/** `extract_orders_from_invoice`: every page is read on its own, from its
    last line up. A line holding an order anchor (`Order` followed by seven
    digits) makes that order the current one; any other line, once an
    anchor has been seen below it on the same page, credits every quantity
    it holds to the current order. Two copies also pick up the invoice
    number from the last line that carries one.
    The copies differ in their patterns:
    - Pieces (app.py, app_beta_beta.py): anchor `Order[:\/\-]?\s*(\d{7})`,
      quantities `(\d+[\.,]?\d*)\s*pcs` ignoring case;
    - Grouped (app_beta.py): anchor `Order[:\/\-\s]*?(\d{7})`, quantities
      `(\d{1,3}(?:[ \.,]?\d{3})*|\d+)\s*(?:pcs|stk|st|szt)?` with the
      separators stripped before `int`. */
module Invoice {
  import opened Text
  import opened OrderMaps

  datatype Layout = Pieces | Grouped

  /** One `re.findall` match: the captured group and where the match ends,
      which is where the search for the next match resumes. */
  datatype Match = Match(group: string, end: nat)

  // ----- order anchors -----

  predicate IsAnchorSeparator(c: char) {
    c == ':' || c == '/' || c == '-'
  }

  /** The end of the run of `[:\/\-\s]` that starts at `p`. */
  function SeparatorRunEnd(s: string, p: nat): (e: nat)
    requires p <= |s|
    ensures p <= e <= |s|
    decreases |s| - p
  {
    if p < |s| && (IsAnchorSeparator(s[p]) || IsSpace(s[p])) then SeparatorRunEnd(s, p + 1) else p
  }

  /** `(\d{7})` at `q`: seven digits there; an eighth digit after them does
      not stop the match. */
  function SevenDigitsAt(s: string, q: nat): Option<string> {
    if q + 7 <= |s| && IsDigits(s[q..q + 7]) then Some(s[q..q + 7]) else None
  }

  /** The anchor pattern tried at position `p` of `s`. None of the
      separators is a digit or a space, so the optional separator and the
      whitespace run are taken greedily without any alternative that
      could succeed instead; the lazy `[:\/\-\s]*?` of the grouped layout
      can only be followed by a digit once the whole run is consumed. */
  function AnchorAt(layout: Layout, s: string, p: nat): Option<string>
    requires p <= |s|
  {
    if !LiteralAt(s, p, "Order") then None
    else match layout
      case Pieces =>
        var q := if p + 5 < |s| && IsAnchorSeparator(s[p + 5]) then p + 6 else p + 5;
        SevenDigitsAt(s, SpaceRunEnd(s, q))
      case Grouped => SevenDigitsAt(s, SeparatorRunEnd(s, p + 5))
  }

  /** What the anchor pattern matches at each position of `s`. */
  function AnchorMatches(layout: Layout, s: string): seq<Option<string>> {
    seq(|s| + 1, q requires 0 <= q <= |s| => AnchorAt(layout, s, q))
  }

  /** `re.search` of the anchor pattern: the order number of the leftmost
      match in the line, if any. */
  function Anchor(layout: Layout, line: string): Option<string> {
    FirstFrom(AnchorMatches(layout, line), 0)
  }

  // ----- quantities, pieces layout -----

  /** `(\d+[\.,]?\d*)\s*pcs`, ignoring case, tried at `p`. The digit runs,
      the separator and the whitespace are disjoint classes, so every
      quantifier is taken greedily: the match needs the whole digit run,
      then (when a `.` or `,` follows) that separator and the whole next
      digit run, then the whole whitespace run, then `pcs`. */
  function PiecesMatchAt(s: string, p: nat): Option<Match>
    requires p < |s|
  {
    if !IsDigit(s[p]) then None
    else
      var a := DigitRunEnd(s, p);
      var b := if a < |s| && (s[a] == '.' || s[a] == ',') then DigitRunEnd(s, a + 1) else a;
      var t := SpaceRunEnd(s, b);
      if FoldedAt(s, t, "pcs") then Some(Match(s[p..b], t + 3)) else None
  }

  /** `re.findall` of the pieces pattern from position `p`. */
  function PiecesFindAll(s: string, p: nat): seq<string>
    requires p <= |s|
    decreases |s| - p
  {
    if p == |s| then []
    else match PiecesMatchAt(s, p)
      case Some(m) => [m.group] + (if p < m.end <= |s| then PiecesFindAll(s, m.end) else [])
      case None => PiecesFindAll(s, p + 1)
  }

  /** `int(float(g.replace(",", ".")))` on a captured group `\d+[\.,]?\d*`:
      the integer part, that is the value of the leading digit run. */
  function PiecesQuantity(g: string): nat {
    DigitRunEndSpec(g, 0);
    DigitsValue(g[..DigitRunEnd(g, 0)])
  }

  /** The quantities of a list of captured groups, in order. */
  function PiecesQuantities(gs: seq<string>): seq<int>
    decreases |gs|
  {
    if gs == [] then [] else PiecesQuantities(gs[..|gs| - 1]) + [PiecesQuantity(gs[|gs| - 1])]
  }

  // ----- quantities, grouped layout -----

  predicate IsGroupSeparator(c: char) {
    c == ' ' || c == '.' || c == ','
  }

  predicate ThreeDigitsAt(s: string, q: nat) {
    q + 3 <= |s| && IsDigit(s[q]) && IsDigit(s[q + 1]) && IsDigit(s[q + 2])
  }

  /** `\d{1,3}` at a digit: up to three digits, as many as there are. */
  function LeadEnd(s: string, p: nat): (e: nat)
    requires p < |s| && IsDigit(s[p])
    ensures p < e <= |s|
  {
    if p + 1 < |s| && IsDigit(s[p + 1]) then
      if p + 2 < |s| && IsDigit(s[p + 2]) then p + 3 else p + 2
    else p + 1
  }

  /** `(?:[ \.,]?\d{3})*` from `q`: each round takes a separator and three
      digits when it can, otherwise three digits, and the repetition stops
      at the first round that can do neither. */
  function GroupsEnd(s: string, q: nat): (e: nat)
    requires q <= |s|
    ensures q <= e <= |s|
    decreases |s| - q
  {
    if q < |s| && IsGroupSeparator(s[q]) && ThreeDigitsAt(s, q + 1) then GroupsEnd(s, q + 4)
    else if ThreeDigitsAt(s, q) then GroupsEnd(s, q + 3)
    else q
  }

  /** `\s*(?:pcs|stk|st|szt)?` from `q`, alternatives tried in that order. */
  function UnitEnd(s: string, q: nat): (e: nat)
    requires q <= |s|
    ensures q <= e <= |s|
  {
    var t := SpaceRunEnd(s, q);
    if LiteralAt(s, t, "pcs") || LiteralAt(s, t, "stk") then t + 3
    else if LiteralAt(s, t, "st") then t + 2
    else if LiteralAt(s, t, "szt") then t + 3
    else t
  }

  /** The grouped pattern at a digit. Its first alternative always matches
      there (so `\d+` is never tried) and everything after the group is
      optional, so the greedy path is the match. */
  function GroupedMatchAt(s: string, p: nat): (m: Match)
    requires p < |s| && IsDigit(s[p])
    ensures p < m.end <= |s|
  {
    var e := GroupsEnd(s, LeadEnd(s, p));
    Match(s[p..e], UnitEnd(s, e))
  }

  /** `re.findall` of the grouped pattern from position `p`: it can only
      start at a digit and it matches at every digit. */
  function GroupedFindAll(s: string, p: nat): seq<string>
    requires p <= |s|
    decreases |s| - p
  {
    if p == |s| then []
    else if IsDigit(s[p]) then
      var m := GroupedMatchAt(s, p);
      [m.group] + GroupedFindAll(s, m.end)
    else GroupedFindAll(s, p + 1)
  }

  /** `g.replace(".", "").replace(",", "").replace(" ", "")`. */
  function Normalize(g: string): string
    decreases |g|
  {
    if g == [] then []
    else (if IsGroupSeparator(g[0]) then [] else [g[0]]) + Normalize(g[1..])
  }

  /** The value a `try` produced, or nothing when it raised. */
  function Listed(q: Option<int>): seq<int> {
    match q
    case Some(v) => [v]
    case None => []
  }

  /** The quantities of a list of captured groups, in order; a group whose
      normalised text `int` rejects is skipped. */
  function GroupedQuantities(gs: seq<string>): seq<int>
    decreases |gs|
  {
    if gs == [] then []
    else
      GroupedQuantities(gs[..|gs| - 1]) + Listed(ParseInt(Normalize(gs[|gs| - 1])))
  }

  /** The quantities a line holds, in the order they are found. */
  function LineQuantities(layout: Layout, line: string): seq<int> {
    match layout
    case Pieces => PiecesQuantities(PiecesFindAll(line, 0))
    case Grouped => GroupedQuantities(GroupedFindAll(line, 0))
  }

  // ----- one page, read from the bottom up -----

  /** What the two patterns find in one line: the anchor `re.search`
      returns and the quantities `re.findall` yields, converted. */
  datatype Reading = Reading(anchor: Option<string>, quantities: seq<int>)

  function ReadLine(layout: Layout, line: string): Reading {
    Reading(Anchor(layout, line), LineQuantities(layout, line))
  }

  function ReadPage(layout: Layout, lines: seq<string>): (rs: seq<Reading>)
    ensures |rs| == |lines|
    decreases |lines|
  {
    if lines == [] then [] else [ReadLine(layout, lines[0])] + ReadPage(layout, lines[1..])
  }

  lemma {:induction false} ReadPageAt(layout: Layout, lines: seq<string>, j: nat)
    requires j < |lines|
    ensures ReadPage(layout, lines)[j] == ReadLine(layout, lines[j])
    decreases j
  {
    if j > 0 {
      ReadPageAt(layout, lines[1..], j - 1);
    }
  }

  /** The anchor of the first anchor line at or after line `i`: the order
      the reverse scan has as current when it reaches line `i - 1`. */
  function Nearest(rs: seq<Reading>, i: nat): Option<string>
    requires i <= |rs|
    decreases |rs| - i
  {
    if i == |rs| then None
    else if rs[i].anchor.Some? then rs[i].anchor
    else Nearest(rs, i + 1)
  }

  /** What line `i` does to the map: an anchor line nothing; any other line
      credits its quantities to the nearest anchor below it, if there is one. */
  function ScanStep(m: OrderMap, rs: seq<Reading>, i: nat): OrderMap
    requires i < |rs|
  {
    if rs[i].anchor.Some? then m
    else match Nearest(rs, i + 1)
      case Some(k) => AddAll(m, k, rs[i].quantities)
      case None => m
  }

  /** The map once the reverse scan has read lines `|rs| - 1` down to `i`. */
  function Scan(m: OrderMap, rs: seq<Reading>, i: nat): OrderMap
    requires i <= |rs|
    decreases |rs| - i
  {
    if i == |rs| then m
    else ScanStep(Scan(m, rs, i + 1), rs, i)
  }

  function PageOrders(layout: Layout, m: OrderMap, lines: seq<string>): OrderMap {
    Scan(m, ReadPage(layout, lines), 0)
  }

  /** `page.split("\n")`. */
  function PageLines(page: string): seq<string> {
    SplitOn(page, '\n')
  }

  /** The map after the pages, one page after the other. */
  function InvoiceOrders(layout: Layout, pages: seq<string>): OrderMap
    decreases |pages|
  {
    if pages == [] then map[]
    else PageOrders(layout, InvoiceOrders(layout, pages[..|pages| - 1]), PageLines(pages[|pages| - 1]))
  }

  lemma PiecesQuantitiesSnoc(gs: seq<string>, j: nat)
    requires j < |gs|
    ensures PiecesQuantities(gs[..j + 1]) == PiecesQuantities(gs[..j]) + [PiecesQuantity(gs[j])]
  {
    assert gs[..j + 1][..j] == gs[..j];
  }

  lemma GroupedQuantitiesSnoc(gs: seq<string>, j: nat)
    requires j < |gs|
    ensures GroupedQuantities(gs[..j + 1]) ==
      GroupedQuantities(gs[..j]) + Listed(ParseInt(Normalize(gs[j])))
  {
    assert gs[..j + 1][..j] == gs[..j];
  }

  /** `for qty_str in qty_matches` with `int(float(...))`. */
  method CreditPieces(orders: OrderMap, current: string, matches: seq<string>) returns (r: OrderMap)
    ensures r == AddAll(orders, current, PiecesQuantities(matches))
  {
    r := orders;
    for j := 0 to |matches|
      invariant r == AddAll(orders, current, PiecesQuantities(matches[..j]))
    {
      var qty := PiecesQuantity(matches[j]);
      PiecesQuantitiesSnoc(matches, j);
      AddAllSnoc(orders, current, PiecesQuantities(matches[..j]), qty);
      r := Add(r, Credit(current, qty));
    }
    assert matches[..|matches|] == matches;
  }

  /** `for qty_str in qty_matches` with the separators stripped and the
      `try` around `int`. */
  method CreditGrouped(orders: OrderMap, current: string, matches: seq<string>) returns (r: OrderMap)
    ensures r == AddAll(orders, current, GroupedQuantities(matches))
  {
    r := orders;
    for j := 0 to |matches|
      invariant r == AddAll(orders, current, GroupedQuantities(matches[..j]))
    {
      var normalized := Normalize(matches[j]);
      var qty := ParseInt(normalized);
      GroupedQuantitiesSnoc(matches, j);
      if qty.Some? {
        AddAllSnoc(orders, current, GroupedQuantities(matches[..j]), qty.value);
        r := Add(r, Credit(current, qty.value));
      } else {
        assert GroupedQuantities(matches[..j]) + [] == GroupedQuantities(matches[..j]);
      }
    }
    assert matches[..|matches|] == matches;
  }

  /** One line's `re.findall` and the loop over its matches. */
  method CreditLine(layout: Layout, orders: OrderMap, current: string, line: string) returns (r: OrderMap)
    ensures r == AddAll(orders, current, LineQuantities(layout, line))
  {
    match layout {
      case Pieces => r := CreditPieces(orders, current, PiecesFindAll(line, 0));
      case Grouped => r := CreditGrouped(orders, current, GroupedFindAll(line, 0));
    }
  }

  /** Reading line `i` of a page, in the terms of the loop below: an anchor
      line becomes current and credits nothing; any other line credits its
      quantities to the current order, if there is one. */
  lemma ScanAt(layout: Layout, orders: OrderMap, lines: seq<string>, i: nat)
    requires i < |lines|
    ensures var rs := ReadPage(layout, lines);
      && Nearest(rs, i) == (if Anchor(layout, lines[i]).Some? then Anchor(layout, lines[i]) else Nearest(rs, i + 1))
      && Scan(orders, rs, i) ==
        if Anchor(layout, lines[i]).None? && Nearest(rs, i + 1).Some?
        then AddAll(Scan(orders, rs, i + 1), Nearest(rs, i + 1).value, LineQuantities(layout, lines[i]))
        else Scan(orders, rs, i + 1)
  {
    ReadPageAt(layout, lines, i);
  }

  /** app.py:33-44, app_beta_beta.py:46-57, app_beta.py:62-74: one page,
      `for line in reversed(lines)`. */
  method CreditPage(layout: Layout, orders: OrderMap, lines: seq<string>) returns (r: OrderMap)
    ensures r == PageOrders(layout, orders, lines)
  {
    ghost var rs := ReadPage(layout, lines);
    r := orders;
    var current: Option<string> := None;
    var i := |lines|;
    while i > 0
      invariant 0 <= i <= |lines|
      invariant current == Nearest(rs, i)
      invariant r == Scan(orders, rs, i)
    {
      i := i - 1;
      var line := lines[i];
      ScanAt(layout, orders, lines, i);
      var orderMatch := Anchor(layout, line);
      if orderMatch.Some? {
        current := orderMatch;
      } else if current.Some? {
        r := CreditLine(layout, r, current.value, line);
      }
    }
  }

  /** app.py:28-46. */
  method ExtractOrders(pages: seq<string>) returns (orders: OrderMap)
    ensures orders == InvoiceOrders(Pieces, pages)
  {
    orders := map[];
    for n := 0 to |pages|
      invariant orders == InvoiceOrders(Pieces, pages[..n])
    {
      assert pages[..n + 1][..n] == pages[..n];
      var lines := PageLines(pages[n]);
      orders := CreditPage(Pieces, orders, lines);
    }
    assert pages[..|pages|] == pages;
  }

  // ----- invoice number -----

  /** The end of the run of `[:\s]` that starts at `p`. */
  function IdSeparatorRunEnd(s: string, p: nat): (e: nat)
    requires p <= |s|
    ensures p <= e <= |s|
    decreases |s| - p
  {
    if p < |s| && (s[p] == ':' || IsSpace(s[p])) then IdSeparatorRunEnd(s, p + 1) else p
  }

  /** The end of the run of `[\w\d-]` that starts at `p`. */
  function WordRunEnd(s: string, p: nat): (e: nat)
    requires p <= |s|
    ensures p <= e <= |s|
    decreases |s| - p
  {
    if p < |s| && IsWordOrDash(s[p]) then WordRunEnd(s, p + 1) else p
  }

  /** `[:\s]*([\w\d-]+)` from `q`: the separators are not word characters,
      so the run of them is taken whole and the number is the whole word
      run after it, which must not be empty. */
  function IdAfter(s: string, q: nat): Option<string>
    requires q <= |s|
  {
    var t := IdSeparatorRunEnd(s, q);
    var e := WordRunEnd(s, t);
    if t < e then Some(s[t..e]) else None
  }

  /** `Faktura(?:nr|nummer)[:\s]*([\w\d-]+)`, ignoring case, tried at `p`.
      The two alternatives differ in their second letter, so at most one
      of them can match. */
  function InvoiceIdAt(s: string, p: nat): Option<string>
    requires p <= |s|
  {
    if FoldedAt(s, p, "fakturanr") then IdAfter(s, p + 9)
    else if FoldedAt(s, p, "fakturanummer") then IdAfter(s, p + 13)
    else None
  }

  /** What the invoice-number pattern matches at each position of `s`. */
  function IdMatches(s: string): seq<Option<string>> {
    seq(|s| + 1, q requires 0 <= q <= |s| => InvoiceIdAt(s, q))
  }

  /** `re.search` of the invoice-number pattern: the number of the
      leftmost match in the line, if any. */
  function InvoiceIdIn(line: string): Option<string> {
    FirstFrom(IdMatches(line), 0)
  }

  /** What `re.search` of the invoice-number pattern finds in each line. */
  function LineIds(lines: seq<string>): (ids: seq<Option<string>>)
    ensures |ids| == |lines|
    decreases |lines|
  {
    if lines == [] then [] else LineIds(lines[..|lines| - 1]) + [InvoiceIdIn(lines[|lines| - 1])]
  }

  lemma {:induction false} LineIdsAt(lines: seq<string>, j: nat)
    requires j < |lines|
    ensures LineIds(lines)[j] == InvoiceIdIn(lines[j])
    decreases |lines|
  {
    if j < |lines| - 1 {
      LineIdsAt(lines[..|lines| - 1], j);
    }
  }

  /** The invoice number after the pages, starting from `""`: every line
      that carries one overwrites it, so the last such line wins. */
  function InvoiceId(pages: seq<string>): string
    decreases |pages|
  {
    if pages == [] then ""
    else LastFound(LineIds(PageLines(pages[|pages| - 1])), InvoiceId(pages[..|pages| - 1]))
  }

  /** `faktura_id or "Faktura"`: the name the report is filed under. */
  function ReportId(id: string): (r: string)
    ensures r != ""
    ensures id != "" ==> r == id
  {
    if id == "" then "Faktura" else id
  }

  /** app_beta.py:57-61, app_beta_beta.py:41-45: `for line in lines`. */
  method ScanInvoiceId(lines: seq<string>, id: string) returns (r: string)
    ensures r == LastFound(LineIds(lines), id)
  {
    r := id;
    for n := 0 to |lines|
      invariant r == LastFound(LineIds(lines[..n]), id)
    {
      assert lines[..n + 1][..n] == lines[..n];
      ghost var ids := LineIds(lines[..n + 1]);
      assert ids[..n] == LineIds(lines[..n]);
      var m := InvoiceIdIn(lines[n]);
      if m.Some? {
        r := m.value;
      }
    }
    assert lines[..|lines|] == lines;
  }

  /** app_beta.py:52-76 (grouped layout) and app_beta_beta.py:36-59
      (pieces layout): the orders of every page and the invoice number. */
  method ExtractOrdersAndId(layout: Layout, pages: seq<string>) returns (orders: OrderMap, invoiceId: string)
    ensures orders == InvoiceOrders(layout, pages)
    ensures invoiceId == InvoiceId(pages)
  {
    orders := map[];
    invoiceId := "";
    for n := 0 to |pages|
      invariant orders == InvoiceOrders(layout, pages[..n])
      invariant invoiceId == InvoiceId(pages[..n])
    {
      assert pages[..n + 1][..n] == pages[..n];
      var lines := PageLines(pages[n]);
      invoiceId := ScanInvoiceId(lines, invoiceId);
      orders := CreditPage(layout, orders, lines);
    }
    assert pages[..|pages|] == pages;
  }
}
