/** `extract_orders_from_confirmation`: one forward pass over the lines of
    a delivery confirmation, crediting quantities to order numbers. The
    PDF pages arrive already joined and split into lines. Two layouts are
    read by the copies of the function:
    - positional (app.py, app_beta_beta.py): the fourth token of a line of
      at least six tokens is the order number, the last token its quantity;
    - order tokens (app_beta.py): every 7-digit token is an order number,
      and its quantity is the first all-digit token after it. */
module Confirmation {
  import opened Text
  import opened OrderMaps

  // ----- the text of the document -----

  /** `"\n".join(pages)` followed by `splitlines()`: the pages' texts run
      together, so a page break is only a line break. */
  function ConfirmationLines(pages: seq<string>): seq<string> {
    SplitLines(JoinWith(pages, '\n'))
  }

  /** `page.extract_text() for page in reader.pages if page.extract_text()`:
      the pages in order with the empty ones left out. */
  function KeptPages(pages: seq<string>): (r: seq<string>)
    ensures |r| <= |pages|
    ensures forall p :: p in r <==> p in pages && p != ""
    decreases |pages|
  {
    if pages == [] then []
    else if pages[0] == "" then KeptPages(pages[1..])
    else [pages[0]] + KeptPages(pages[1..])
  }

  /** A single page is kept exactly when it is not empty. */
  lemma KeptPagesSingle(p: string)
    ensures KeptPages([p]) == if p == "" then [] else [p]
  {
    assert [p][1..] == [];
  }

  /** The filter works page by page: what is kept of `a + b` is what is kept
      of `a` followed by what is kept of `b`, so the kept pages stay in
      document order and a repeated page is kept every time. */
  lemma {:induction false} KeptPagesAppend(a: seq<string>, b: seq<string>)
    ensures KeptPages(a + b) == KeptPages(a) + KeptPages(b)
    decreases |a|
  {
    if a == [] {
      assert a + b == b;
    } else {
      assert (a + b)[0] == a[0] && (a + b)[1..] == a[1..] + b;
      KeptPagesAppend(a[1..], b);
    }
  }

  // ----- positional layout -----

  /** The credit one line makes in the positional layout: when it has at
      least six tokens and token 3 is all digits, `int` of the last token
      is credited to token 3; a last token `int` rejects is skipped. */
  function PositionalCredit(line: string): Option<Credit> {
    var parts := Split(line);
    if |parts| >= 6 && IsDigits(parts[3]) then
      match ParseInt(parts[|parts| - 1])
      case Some(q) => Some(Credit(parts[3], q))
      case None => None
    else None
  }

  /** The map after the lines `lines`, one line after the other. */
  function PositionalOrders(lines: seq<string>): OrderMap
    decreases |lines|
  {
    if lines == [] then map[]
    else Apply(PositionalOrders(lines[..|lines| - 1]), PositionalCredit(lines[|lines| - 1]))
  }

  /** app.py:16-25, app_beta_beta.py:24-33. */
  method ExtractPositional(lines: seq<string>) returns (orders: OrderMap)
    ensures orders == PositionalOrders(lines)
  {
    orders := map[];
    for n := 0 to |lines|
      invariant orders == PositionalOrders(lines[..n])
    {
      assert lines[..n + 1][..n] == lines[..n];
      var parts := Split(lines[n]);
      if |parts| >= 6 && IsDigits(parts[3]) {
        var orderNumber := parts[3];
        var qty := ParseInt(parts[|parts| - 1]);
        if qty.Some? {
          orders := Add(orders, Credit(orderNumber, qty.value));
        }
      }
    }
    assert lines[..|lines|] == lines;
  }

  /** app.py:10-26, app_beta_beta.py:18-34: the whole document. */
  method ExtractConfirmation(pages: seq<string>) returns (orders: OrderMap)
    ensures orders == PositionalOrders(ConfirmationLines(pages))
  {
    var text := JoinWith(pages, '\n');
    var lines := SplitLines(text);
    orders := ExtractPositional(lines);
  }

  /** Line `line` credits order number `k` in the positional layout: at
      least six tokens, `k` is token 3 and all digits, and the last token
      is an integer. */
  predicate CreditsKey(line: string, k: string) {
    var parts := Split(line);
    |parts| >= 6 && parts[3] == k && IsDigits(k) && ParseInt(parts[|parts| - 1]).Some?
  }

  /** What line `line` adds to `k`: the integer of its last token when it
      credits `k`, nothing otherwise. */
  function LineAmount(line: string, k: string): int {
    if CreditsKey(line, k) then
      var parts := Split(line);
      ParseInt(parts[|parts| - 1]).value
    else 0
  }

  /** Reference definition: the sum over the lines of what each adds to `k`. */
  function QualifyingSum(lines: seq<string>, k: string): int
    decreases |lines|
  {
    if lines == [] then 0
    else QualifyingSum(lines[..|lines| - 1], k) + LineAmount(lines[|lines| - 1], k)
  }

  lemma PositionalLine(m: OrderMap, line: string, k: string)
    ensures k in Apply(m, PositionalCredit(line)) <==> k in m || CreditsKey(line, k)
    ensures Get(Apply(m, PositionalCredit(line)), k) == Get(m, k) + LineAmount(line, k)
  {
  }

  lemma {:induction false} PositionalSumAt(lines: seq<string>, k: string)
    ensures Get(PositionalOrders(lines), k) == QualifyingSum(lines, k)
    decreases |lines|
  {
    if lines != [] {
      PositionalSumAt(lines[..|lines| - 1], k);
      PositionalLine(PositionalOrders(lines[..|lines| - 1]), lines[|lines| - 1], k);
    }
  }

  lemma {:induction false} PositionalKeysAt(lines: seq<string>, k: string)
    ensures k in PositionalOrders(lines) <==> exists i :: 0 <= i < |lines| && CreditsKey(lines[i], k)
    decreases |lines|
  {
    if lines != [] {
      var init, last := lines[..|lines| - 1], lines[|lines| - 1];
      PositionalKeysAt(init, k);
      PositionalLine(PositionalOrders(init), last, k);
      if exists i :: 0 <= i < |lines| && CreditsKey(lines[i], k) {
        var i :| 0 <= i < |lines| && CreditsKey(lines[i], k);
        if i < |init| {
          assert init[i] == lines[i];
        }
      }
      if exists i :: 0 <= i < |init| && CreditsKey(init[i], k) {
        var i :| 0 <= i < |init| && CreditsKey(init[i], k);
        assert lines[i] == init[i];
      }
    }
  }

  /** An order is present exactly when some qualifying line names it, and
      its total is the sum over the lines of what each adds to it. */
  lemma PositionalSumsAt(lines: seq<string>, k: string)
    ensures k in PositionalOrders(lines) <==> exists i :: 0 <= i < |lines| && CreditsKey(lines[i], k)
    ensures Get(PositionalOrders(lines), k) == QualifyingSum(lines, k)
  {
    PositionalKeysAt(lines, k);
    PositionalSumAt(lines, k);
  }

  /** Positional confirmation totals: a key is in the map exactly when some
      qualifying line names it, and its value is the sum of the last-token
      integers of those lines (repeated keys add up, never overwrite). */
  lemma PositionalSums(lines: seq<string>)
    ensures forall k :: k in PositionalOrders(lines) <==> exists i :: 0 <= i < |lines| && CreditsKey(lines[i], k)
    ensures forall k :: Get(PositionalOrders(lines), k) == QualifyingSum(lines, k)
  {
    forall k
      ensures k in PositionalOrders(lines) <==> exists i :: 0 <= i < |lines| && CreditsKey(lines[i], k)
      ensures Get(PositionalOrders(lines), k) == QualifyingSum(lines, k)
    {
      PositionalSumsAt(lines, k);
    }
  }

  /** Every positional key is an all-digit token, of any length. */
  lemma PositionalKeysAreDigits(lines: seq<string>)
    ensures forall k :: k in PositionalOrders(lines) ==> IsDigits(k)
  {
    PositionalSums(lines);
  }

  // ----- order-token layout -----

  /** `[p for p in ps if re.fullmatch(r"\d+", p)]`. */
  function Numerals(ps: seq<string>): (r: seq<string>)
    ensures forall i :: 0 <= i < |r| ==> IsDigits(r[i])
  {
    if ps == [] then []
    else if IsDigits(ps[0]) then [ps[0]] + Numerals(ps[1..])
    else Numerals(ps[1..])
  }

  /** `qty_candidates[0]` is the first all-digit token: the candidates are
      empty exactly when no token is all digits, and otherwise the first
      candidate is some all-digit token with none before it. */
  lemma {:induction false} FirstNumeral(ps: seq<string>)
    ensures Numerals(ps) == [] <==> forall j :: 0 <= j < |ps| ==> !IsDigits(ps[j])
    ensures Numerals(ps) != [] ==>
      exists j :: 0 <= j < |ps| && ps[j] == Numerals(ps)[0] && IsDigits(ps[j])
        && (forall l :: 0 <= l < j ==> !IsDigits(ps[l]))
  {
    if ps != [] && !IsDigits(ps[0]) {
      FirstNumeral(ps[1..]);
      if Numerals(ps) != [] {
        var j :| 0 <= j < |ps[1..]| && ps[1..][j] == Numerals(ps)[0]
          && IsDigits(ps[1..][j]) && forall l :: 0 <= l < j ==> !IsDigits(ps[1..][l]);
        assert ps[j + 1] == ps[1..][j];
        forall l | 0 <= l < j + 1 ensures !IsDigits(ps[l]) {
          if l > 0 { assert ps[l] == ps[1..][l - 1]; }
        }
      } else {
        forall j | 0 <= j < |ps| ensures !IsDigits(ps[j]) {
          if j > 0 { assert ps[j] == ps[1..][j - 1]; }
        }
      }
    } else if ps != [] {
      assert ps[0] == Numerals(ps)[0];
    }
  }

  /** The credit token `i` of a line makes in the order-token layout; an
      `int` that raises (a candidate over the digit limit) credits nothing. */
  function TokenCredit(parts: seq<string>, i: nat): Option<Credit>
    requires i < |parts|
  {
    if IsOrderNumber(parts[i]) then
      var candidates := Numerals(parts[i + 1..]);
      if candidates != [] then
        match ParseInt(candidates[0])
        case Some(qty) => Some(Credit(parts[i], qty))
        case None => None
      else None
    else None
  }

  /** The map after the first `n` tokens of a line, starting from `m`. */
  function TokenLineOrders(m: OrderMap, parts: seq<string>, n: nat): OrderMap
    requires n <= |parts|
  {
    if n == 0 then m else Apply(TokenLineOrders(m, parts, n - 1), TokenCredit(parts, n - 1))
  }

  /** The map after the lines `lines`, one line after the other. */
  function OrderTokenOrders(lines: seq<string>): OrderMap
    decreases |lines|
  {
    if lines == [] then map[]
    else
      var parts := Split(lines[|lines| - 1]);
      TokenLineOrders(OrderTokenOrders(lines[..|lines| - 1]), parts, |parts|)
  }

  /** app_beta.py:38-49. */
  method ExtractOrderTokens(lines: seq<string>) returns (orders: OrderMap)
    ensures orders == OrderTokenOrders(lines)
  {
    orders := map[];
    for n := 0 to |lines|
      invariant orders == OrderTokenOrders(lines[..n])
    {
      assert lines[..n + 1][..n] == lines[..n];
      var parts := Split(lines[n]);
      ghost var before := orders;
      for i := 0 to |parts|
        invariant orders == TokenLineOrders(before, parts, i)
      {
        var part := parts[i];
        if IsOrderNumber(part) {
          var candidates := Numerals(parts[i + 1..]);
          if candidates != [] {
            var qty := ParseInt(candidates[0]);
            if qty.Some? {
              orders := Add(orders, Credit(part, qty.value));
            }
          }
        }
      }
    }
    assert lines[..|lines|] == lines;
  }

  /** app_beta.py:32-50: the whole document, empty pages left out. */
  method ExtractConfirmationTokens(pages: seq<string>) returns (orders: OrderMap)
    ensures orders == OrderTokenOrders(ConfirmationLines(KeptPages(pages)))
  {
    var text := JoinWith(KeptPages(pages), '\n');
    var lines := SplitLines(text);
    orders := ExtractOrderTokens(lines);
  }

  lemma {:induction false} TokenLineShape(m: OrderMap, parts: seq<string>, n: nat)
    requires n <= |parts| && WellFormed(m)
    ensures WellFormed(TokenLineOrders(m, parts, n))
  {
    if n > 0 {
      TokenLineShape(m, parts, n - 1);
      var candidates := Numerals(parts[n..]);
      if candidates != [] {
        ParseIntDigits(candidates[0]);
      }
    }
  }

  /** Order-token confirmations hold only 7-digit order numbers, each with
      a non-negative quantity (the candidates match `\d+`, so no sign). */
  lemma {:induction false} OrderTokenShape(lines: seq<string>)
    ensures WellFormed(OrderTokenOrders(lines))
    decreases |lines|
  {
    if lines != [] {
      var parts := Split(lines[|lines| - 1]);
      OrderTokenShape(lines[..|lines| - 1]);
      TokenLineShape(OrderTokenOrders(lines[..|lines| - 1]), parts, |parts|);
    }
  }

  lemma TokenCreditNone(parts: seq<string>, i: nat)
    requires i < |parts| && forall j :: i < j < |parts| ==> !IsDigits(parts[j])
    ensures TokenCredit(parts, i) == None
  {
    var ps := parts[i + 1..];
    FirstNumeral(ps);
    forall l | 0 <= l < |ps| ensures !IsDigits(ps[l]) {
      assert ps[l] == parts[i + 1 + l];
    }
  }

  lemma TokenCreditAt(parts: seq<string>, i: nat, j: nat)
    requires i < j < |parts| && IsOrderNumber(parts[i]) && IsDigits(parts[j])
    requires forall l :: i < l < j ==> !IsDigits(parts[l])
    ensures TokenCredit(parts, i) ==
      if |parts[j]| <= MaxStrDigits then Some(Credit(parts[i], DigitsValue(parts[j]))) else None
  {
    var ps := parts[i + 1..];
    FirstNumeral(ps);
    assert ps[j - i - 1] == parts[j];
    var j0 :| 0 <= j0 < |ps| && ps[j0] == Numerals(ps)[0] && IsDigits(ps[j0])
      && forall l :: 0 <= l < j0 ==> !IsDigits(ps[l]);
    assert !(j0 < j - i - 1) by {
      assert ps[j0] == parts[i + 1 + j0];
    }
    assert j0 == j - i - 1;
    ParseIntDigits(ps[j0]);
  }

  /** Each 7-digit token of a line is credited on its own, with the first
      all-digit token after it, which may itself be a later order number;
      a 7-digit token with no all-digit token after it, or whose first one
      is over the digit limit of `int`, credits nothing. */
  lemma TokenCreditOfOrderNumber(parts: seq<string>, i: nat)
    requires i < |parts| && IsOrderNumber(parts[i])
    ensures (forall j :: i < j < |parts| ==> !IsDigits(parts[j])) ==> TokenCredit(parts, i) == None
    ensures forall j :: i < j < |parts| && IsDigits(parts[j]) && (forall l :: i < l < j ==> !IsDigits(parts[l])) ==>
      TokenCredit(parts, i) ==
        if |parts[j]| <= MaxStrDigits then Some(Credit(parts[i], DigitsValue(parts[j]))) else None
  {
    if forall j :: i < j < |parts| ==> !IsDigits(parts[j]) {
      TokenCreditNone(parts, i);
    }
    forall j | i < j < |parts| && IsDigits(parts[j]) && (forall l :: i < l < j ==> !IsDigits(parts[l]))
      ensures TokenCredit(parts, i) ==
        if |parts[j]| <= MaxStrDigits then Some(Credit(parts[i], DigitsValue(parts[j]))) else None
    {
      TokenCreditAt(parts, i, j);
    }
  }

  /** Token `i` of a line credits order `k`. */
  predicate TokenCredits(parts: seq<string>, i: nat, k: string)
    requires i < |parts|
  {
    TokenCredit(parts, i).Some? && TokenCredit(parts, i).value.order == k
  }

  /** The first all-digit token after token `i`, within the digit limit:
      what a crediting token is credited with. */
  predicate FirstNumeralAt(parts: seq<string>, i: nat, j: nat) {
    i < j < |parts| && IsDigits(parts[j]) && |parts[j]| <= MaxStrDigits
    && forall l :: i < l < j ==> !IsDigits(parts[l])
  }

  lemma TokenCreditsWitness(parts: seq<string>, i: nat, k: string)
    requires i < |parts| && TokenCredits(parts, i, k)
    ensures parts[i] == k && IsOrderNumber(k)
    ensures exists j :: FirstNumeralAt(parts, i, j)
  {
    var ps := parts[i + 1..];
    FirstNumeral(ps);
    var j0 :| 0 <= j0 < |ps| && ps[j0] == Numerals(ps)[0] && IsDigits(ps[j0])
      && forall l :: 0 <= l < j0 ==> !IsDigits(ps[l]);
    ParseIntDigits(ps[j0]);
    var j := i + 1 + j0;
    assert parts[j] == ps[j0];
    forall l | i < l < j ensures !IsDigits(parts[l]) {
      assert parts[l] == ps[l - i - 1];
    }
    assert FirstNumeralAt(parts, i, j);
  }

  lemma TokenCreditsFrom(parts: seq<string>, i: nat, j: nat)
    requires i < |parts| && IsOrderNumber(parts[i]) && FirstNumeralAt(parts, i, j)
    ensures TokenCredits(parts, i, parts[i])
  {
    TokenCreditAt(parts, i, j);
  }

  /** Token `i` credits `k` exactly when it is `k`, `k` is a 7-digit order
      number and the first all-digit token after it is within the digit
      limit of `int`. */
  lemma TokenCreditsSpec(parts: seq<string>, i: nat, k: string)
    requires i < |parts|
    ensures TokenCredits(parts, i, k) <==>
      parts[i] == k && IsOrderNumber(k) && exists j :: FirstNumeralAt(parts, i, j)
  {
    if TokenCredits(parts, i, k) {
      TokenCreditsWitness(parts, i, k);
    }
    if parts[i] == k && IsOrderNumber(k) && exists j :: FirstNumeralAt(parts, i, j) {
      var j :| FirstNumeralAt(parts, i, j);
      TokenCreditsFrom(parts, i, j);
    }
  }

  /** What token `i` of a line adds to order `k`. */
  function TokenAmount(parts: seq<string>, i: nat, k: string): int
    requires i < |parts|
  {
    if TokenCredits(parts, i, k) then TokenCredit(parts, i).value.qty else 0
  }

  /** Reference definition: what tokens `0..n` of a line add to order `k`. */
  function TokenLineSum(parts: seq<string>, n: nat, k: string): int
    requires n <= |parts|
  {
    if n == 0 then 0 else TokenLineSum(parts, n - 1, k) + TokenAmount(parts, n - 1, k)
  }

  /** Reference definition: what the lines add to order `k`, line by line
      and token by token. */
  function TokenSum(lines: seq<string>, k: string): int
    decreases |lines|
  {
    if lines == [] then 0
    else
      var parts := Split(lines[|lines| - 1]);
      TokenSum(lines[..|lines| - 1], k) + TokenLineSum(parts, |parts|, k)
  }

  /** Some token of `line` credits order `k`. */
  predicate LineCredits(line: string, k: string) {
    var parts := Split(line);
    exists i :: 0 <= i < |parts| && TokenCredits(parts, i, k)
  }

  lemma {:induction false} TokenLineSumAt(m: OrderMap, parts: seq<string>, n: nat, k: string)
    requires n <= |parts|
    ensures Get(TokenLineOrders(m, parts, n), k) == Get(m, k) + TokenLineSum(parts, n, k)
    decreases n
  {
    if n > 0 {
      TokenLineSumAt(m, parts, n - 1, k);
      ApplyAt(TokenLineOrders(m, parts, n - 1), TokenCredit(parts, n - 1), k);
    }
  }

  lemma {:induction false} TokenLineKeys(m: OrderMap, parts: seq<string>, n: nat, k: string)
    requires n <= |parts|
    ensures k in TokenLineOrders(m, parts, n) <==> k in m || exists i :: 0 <= i < n && TokenCredits(parts, i, k)
    decreases n
  {
    if n > 0 {
      var before := TokenLineOrders(m, parts, n - 1);
      TokenLineKeys(m, parts, n - 1, k);
      ApplyAt(before, TokenCredit(parts, n - 1), k);
      if k in TokenLineOrders(m, parts, n) && k !in m {
        if k in before {
          var i :| 0 <= i < n - 1 && TokenCredits(parts, i, k);
          assert 0 <= i < n && TokenCredits(parts, i, k);
        } else {
          assert TokenCredits(parts, n - 1, k);
        }
      }
      if exists i :: 0 <= i < n && TokenCredits(parts, i, k) {
        var i :| 0 <= i < n && TokenCredits(parts, i, k);
        if i < n - 1 {
          assert k in before;
        }
      }
    }
  }

  lemma {:induction false} TokenSumAt(lines: seq<string>, k: string)
    ensures Get(OrderTokenOrders(lines), k) == TokenSum(lines, k)
    decreases |lines|
  {
    if lines != [] {
      var parts := Split(lines[|lines| - 1]);
      TokenSumAt(lines[..|lines| - 1], k);
      TokenLineSumAt(OrderTokenOrders(lines[..|lines| - 1]), parts, |parts|, k);
    }
  }

  lemma {:induction false} TokenKeys(lines: seq<string>, k: string)
    ensures k in OrderTokenOrders(lines) <==> exists l :: 0 <= l < |lines| && LineCredits(lines[l], k)
    decreases |lines|
  {
    if lines != [] {
      var init := lines[..|lines| - 1];
      var parts := Split(lines[|lines| - 1]);
      TokenKeys(init, k);
      TokenLineKeys(OrderTokenOrders(init), parts, |parts|, k);
      if exists l :: 0 <= l < |lines| && LineCredits(lines[l], k) {
        var l :| 0 <= l < |lines| && LineCredits(lines[l], k);
        if l < |init| {
          assert init[l] == lines[l];
        }
      }
      if exists l :: 0 <= l < |init| && LineCredits(init[l], k) {
        var l :| 0 <= l < |init| && LineCredits(init[l], k);
        assert lines[l] == init[l];
      }
    }
  }

  /** Order-token totals: an order is present exactly when some token of
      some line credits it, and its total is the sum of what every such
      token credits, so repeated order numbers add up. */
  lemma TokenSumsAt(lines: seq<string>, k: string)
    ensures k in OrderTokenOrders(lines) <==> exists l :: 0 <= l < |lines| && LineCredits(lines[l], k)
    ensures Get(OrderTokenOrders(lines), k) == TokenSum(lines, k)
  {
    TokenKeys(lines, k);
    TokenSumAt(lines, k);
  }
}
