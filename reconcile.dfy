/** `compare_orders`: one report row per order number found on either
    document, in ascending order of order number, each with both quantities
    (0 for a document that does not list the order) and whether they agree.
    The function is the same in app.py, app_beta.py and app_beta_beta.py. */
module Reconcile {
  import opened OrderMaps

  // ----- Python's ordering of `str` -----

  /** `a < b` on Python strings: code point by code point, and a proper
      prefix comes first. */
  predicate Less(a: string, b: string)
    decreases |a|
  {
    if a == [] then b != []
    else b != [] && (a[0] < b[0] || (a[0] == b[0] && Less(a[1..], b[1..])))
  }

  lemma {:induction false} LessIrreflexive(a: string)
    ensures !Less(a, a)
    decreases |a|
  {
    if a != [] {
      LessIrreflexive(a[1..]);
    }
  }

  lemma {:induction false} LessTransitive(a: string, b: string, c: string)
    requires Less(a, b) && Less(b, c)
    ensures Less(a, c)
    decreases |a|
  {
    if a != [] && a[0] == b[0] && b[0] == c[0] {
      LessTransitive(a[1..], b[1..], c[1..]);
    }
  }

  /** Any two different strings are ordered one way round. */
  lemma {:induction false} LessTotal(a: string, b: string)
    requires a != b
    ensures Less(a, b) || Less(b, a)
    decreases |a|
  {
    if a != [] && b != [] && a[0] == b[0] {
      assert a == [a[0]] + a[1..] && b == [b[0]] + b[1..];
      LessTotal(a[1..], b[1..]);
    }
  }

  // ----- sorted(all_orders) -----

  /** Strictly ascending, hence free of repeats. */
  predicate Ascending(xs: seq<string>) {
    forall i, j :: 0 <= i < j < |xs| ==> Less(xs[i], xs[j])
  }

  /** `k` placed into the ascending `xs` before the first larger element. */
  function Insert(xs: seq<string>, k: string): seq<string>
    decreases |xs|
  {
    if xs == [] || Less(k, xs[0]) then [k] + xs else [xs[0]] + Insert(xs[1..], k)
  }

  lemma {:induction false} InsertSpec(xs: seq<string>, k: string)
    requires Ascending(xs) && k !in xs
    ensures Ascending(Insert(xs, k))
    ensures forall x :: x in Insert(xs, k) <==> x in xs || x == k
    ensures |Insert(xs, k)| == |xs| + 1
    decreases |xs|
  {
    var r := Insert(xs, k);
    if xs == [] {
    } else if Less(k, xs[0]) {
      forall j | 0 < j < |r| ensures Less(r[0], r[j]) {
        if j > 1 {
          LessTransitive(k, xs[0], xs[j - 1]);
        }
      }
    } else {
      LessTotal(k, xs[0]);
      InsertSpec(xs[1..], k);
      var t := Insert(xs[1..], k);
      assert r == [xs[0]] + t;
      forall j | 0 < j < |r| ensures Less(xs[0], r[j]) {
        assert r[j] == t[j - 1];
        assert r[j] in t;
        if r[j] != k {
          var l :| 0 <= l < |xs[1..]| && xs[1..][l] == r[j];
          assert xs[l + 1] == r[j];
        }
      }
    }
  }

  /** `sorted` of a set of order numbers: every member once, ascending. */
  method SortedKeys(s: set<string>) returns (xs: seq<string>)
    ensures Ascending(xs)
    ensures forall k :: k in xs <==> k in s
    ensures |xs| == |s|
  {
    xs := [];
    var remaining := s;
    while remaining != {}
      invariant Ascending(xs)
      invariant forall k :: k in xs <==> k in s && k !in remaining
      invariant remaining <= s
      invariant |xs| + |remaining| == |s|
      decreases |remaining|
    {
      var k :| k in remaining;
      InsertSpec(xs, k);
      xs := Insert(xs, k);
      remaining := remaining - {k};
    }
  }

  // ----- the report -----

  /** One report row: `Ordernummer`, `Antal (Leveransbekräftelse)`,
      `Antal (Faktura)` and `Matchar?`. */
  datatype Row = Row(order: string, confirmed: int, invoiced: int, matches: string)

  /** The row for order `k`: a document that does not list it reads 0. */
  function RowFor(confirmation: OrderMap, invoice: OrderMap, k: string): Row {
    var leverans := Get(confirmation, k);
    var faktura := Get(invoice, k);
    Row(k, leverans, faktura, if leverans == faktura then "JA" else "NEJ")
  }

  /** The rows for the order numbers `ks`, in that order. */
  function RowsFor(confirmation: OrderMap, invoice: OrderMap, ks: seq<string>): (rows: seq<Row>)
    ensures |rows| == |ks|
    decreases |ks|
  {
    if ks == [] then []
    else RowsFor(confirmation, invoice, ks[..|ks| - 1]) + [RowFor(confirmation, invoice, ks[|ks| - 1])]
  }

  lemma {:induction false} RowsForAt(confirmation: OrderMap, invoice: OrderMap, ks: seq<string>, i: nat)
    requires i < |ks|
    ensures RowsFor(confirmation, invoice, ks)[i] == RowFor(confirmation, invoice, ks[i])
    decreases |ks|
  {
    if i < |ks| - 1 {
      RowsForAt(confirmation, invoice, ks[..|ks| - 1], i);
    }
  }

  /** What `compare_orders` promises of its rows: one per order number on
      either document, strictly ascending, each the row for its order. */
  ghost predicate IsReport(rows: seq<Row>, confirmation: OrderMap, invoice: OrderMap) {
    && (forall i, j :: 0 <= i < j < |rows| ==> Less(rows[i].order, rows[j].order))
    && (forall k :: k in confirmation || k in invoice <==> exists i :: 0 <= i < |rows| && rows[i].order == k)
    && (forall i :: 0 <= i < |rows| ==> rows[i] == RowFor(confirmation, invoice, rows[i].order))
  }

  /** app.py:51-59: `for order in sorted(all_orders)`, one row per order
      number in the order given. */
  method BuildRows(confirmation: OrderMap, invoice: OrderMap, orders: seq<string>) returns (rows: seq<Row>)
    ensures rows == RowsFor(confirmation, invoice, orders)
  {
    rows := [];
    for n := 0 to |orders|
      invariant rows == RowsFor(confirmation, invoice, orders[..n])
    {
      assert orders[..n + 1][..n] == orders[..n];
      var order := orders[n];
      var leverans := Get(confirmation, order);
      var faktura := Get(invoice, order);
      rows := rows + [Row(order, leverans, faktura, if leverans == faktura then "JA" else "NEJ")];
    }
    assert orders[..|orders|] == orders;
  }

  /** app.py:48-60, app_beta.py:78-90, app_beta_beta.py:61-73. */
  method CompareOrders(confirmation: OrderMap, invoice: OrderMap) returns (rows: seq<Row>)
    ensures IsReport(rows, confirmation, invoice)
    ensures |rows| == |confirmation.Keys + invoice.Keys|
  {
    var allOrders := confirmation.Keys + invoice.Keys;
    var orders := SortedKeys(allOrders);
    rows := BuildRows(confirmation, invoice, orders);
    ReportOfKeys(rows, orders, confirmation, invoice);
  }

  lemma ReportOfKeys(rows: seq<Row>, orders: seq<string>, confirmation: OrderMap, invoice: OrderMap)
    requires rows == RowsFor(confirmation, invoice, orders) && Ascending(orders)
    requires forall k :: k in orders <==> k in confirmation || k in invoice
    ensures IsReport(rows, confirmation, invoice)
  {
    forall i | 0 <= i < |rows| ensures rows[i] == RowFor(confirmation, invoice, orders[i]) {
      RowsForAt(confirmation, invoice, orders, i);
    }
    forall k | k in confirmation || k in invoice
      ensures exists i :: 0 <= i < |rows| && rows[i].order == k
    {
      var i :| 0 <= i < |orders| && orders[i] == k;
      assert rows[i].order == k;
    }
  }

  /** Every row says `JA` exactly when the two documents agree on every
      order number, an order absent from one side counting as 0 there. */
  lemma ReportAllMatch(rows: seq<Row>, confirmation: OrderMap, invoice: OrderMap)
    requires IsReport(rows, confirmation, invoice)
    ensures (forall i :: 0 <= i < |rows| ==> rows[i].matches == "JA") <==>
      forall k :: Get(confirmation, k) == Get(invoice, k)
  {
    if forall i :: 0 <= i < |rows| ==> rows[i].matches == "JA" {
      forall k ensures Get(confirmation, k) == Get(invoice, k) {
        if k in confirmation || k in invoice {
          var i :| 0 <= i < |rows| && rows[i].order == k;
          assert rows[i] == RowFor(confirmation, invoice, k);
        }
      }
    }
  }

  /** The flag of every row is `JA` or `NEJ`, and `JA` exactly when the
      two quantities are equal. */
  lemma ReportFlags(rows: seq<Row>, confirmation: OrderMap, invoice: OrderMap)
    requires IsReport(rows, confirmation, invoice)
    ensures forall i :: 0 <= i < |rows| ==> rows[i].matches in {"JA", "NEJ"}
    ensures forall i :: 0 <= i < |rows| ==> (rows[i].matches == "JA" <==> rows[i].confirmed == rows[i].invoiced)
  {
    forall i | 0 <= i < |rows|
      ensures rows[i].matches in {"JA", "NEJ"}
      ensures rows[i].matches == "JA" <==> rows[i].confirmed == rows[i].invoiced
    {
      assert rows[i] == RowFor(confirmation, invoice, rows[i].order);
      assert "JA" != "NEJ";
    }
  }

  /** The head of an ascending list comes before each of its other elements. */
  lemma AscendingHead(xs: seq<string>, k: string)
    requires Ascending(xs) && k in xs
    ensures xs[0] == k || Less(xs[0], k)
  {
    var j :| 0 <= j < |xs| && xs[j] == k;
    if j > 0 {
      assert Less(xs[0], xs[j]);
    }
  }

  /** Two strictly ascending lists of the same strings are the same list. */
  lemma {:induction false} AscendingUnique(xs: seq<string>, ys: seq<string>)
    requires Ascending(xs) && Ascending(ys)
    requires forall k :: k in xs <==> k in ys
    ensures xs == ys
    decreases |xs|
  {
    if xs != [] {
      assert xs[0] in ys;
    }
    if ys != [] {
      assert ys[0] in xs;
    }
    if xs != [] && ys != [] {
      AscendingHead(xs, ys[0]);
      AscendingHead(ys, xs[0]);
      if xs[0] != ys[0] {
        LessTransitive(xs[0], ys[0], xs[0]);
        LessIrreflexive(xs[0]);
        assert false;
      }
      forall k ensures k in xs[1..] <==> k in ys[1..] {
        LessIrreflexive(k);
        if k in xs[1..] {
          var i :| 0 <= i < |xs[1..]| && xs[1..][i] == k;
          assert Less(xs[0], xs[i + 1]) && k in xs;
          var j :| 0 <= j < |ys| && ys[j] == k;
          assert j != 0 && ys[1..][j - 1] == k;
        }
        if k in ys[1..] {
          var i :| 0 <= i < |ys[1..]| && ys[1..][i] == k;
          assert Less(ys[0], ys[i + 1]) && k in ys;
          var j :| 0 <= j < |xs| && xs[j] == k;
          assert j != 0 && xs[1..][j - 1] == k;
        }
      }
      AscendingUnique(xs[1..], ys[1..]);
      assert xs == [xs[0]] + xs[1..] && ys == [ys[0]] + ys[1..];
    }
  }

  function Orders(rows: seq<Row>): seq<string> {
    seq(|rows|, i requires 0 <= i < |rows| => rows[i].order)
  }

  lemma OrdersOfReport(rows: seq<Row>, confirmation: OrderMap, invoice: OrderMap)
    requires IsReport(rows, confirmation, invoice)
    ensures Ascending(Orders(rows))
    ensures forall k :: k in Orders(rows) <==> k in confirmation || k in invoice
  {
    var xs := Orders(rows);
    forall k ensures k in xs <==> k in confirmation || k in invoice {
      if k in xs {
        var i :| 0 <= i < |xs| && xs[i] == k;
        assert rows[i].order == k;
      }
      if k in confirmation || k in invoice {
        var i :| 0 <= i < |rows| && rows[i].order == k;
        assert xs[i] == k;
      }
    }
  }

  /** The report is determined by the two maps: any two row lists meeting
      its promise are equal, so the rows, their order and their count are
      exactly those of `compare_orders`. */
  lemma ReportUnique(rows: seq<Row>, rows': seq<Row>, confirmation: OrderMap, invoice: OrderMap)
    requires IsReport(rows, confirmation, invoice) && IsReport(rows', confirmation, invoice)
    ensures rows == rows'
  {
    OrdersOfReport(rows, confirmation, invoice);
    OrdersOfReport(rows', confirmation, invoice);
    AscendingUnique(Orders(rows), Orders(rows'));
    forall i | 0 <= i < |rows| ensures rows[i] == rows'[i] {
      assert Orders(rows)[i] == Orders(rows')[i];
    }
  }
}
