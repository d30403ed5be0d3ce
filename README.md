# Order reconciliation, modelled in Dafny

Three Streamlit apps (`app.py`, `app_beta.py`, `app_beta_beta.py`) share one
small engine. It compares a delivery confirmation ("leveransbekräftelse")
with an invoice ("faktura"):

- `extract_orders_from_confirmation` reads the confirmation's text line by line.
  It adds a quantity to an order number for every line that names one.
- `extract_orders_from_invoice` reads every invoice page from its last line up.
  - A line matching `Order…` plus seven digits makes that order the current one.
  - Every other line above it on the same page credits its quantities to that order.
  - Two of the copies also keep the invoice number ("Fakturanr"/"Fakturanummer")
    from the last line that carries one.
- `compare_orders` builds the report:
  - one row per order number found on either document, in ascending order;
  - 0 for a document that does not list the order;
  - `JA` when the two quantities agree, `NEJ` otherwise.

Each parser is a method whose loops mirror the Python loops. It is proved
equal to a specification function: a fold over lines, tokens or pages. Lemmas
then state what the specification promises:
- sums per order;
- which lines may credit an order;
- the nearest-anchor rule;
- page-local context;
- the last invoice number winning;
- the shape of the report.

Modules:
- `Text` (`text.dfy`): the pieces of Python's `str` and `re` the parsers use.
  These are `isspace`, `isdigit`, `int()`, `split()`, `split("\n")`,
  `splitlines()`, and `re.search` as the leftmost match.
- `OrderMaps` (`order_maps.dfy`): the `defaultdict(int)` and its `+=`.
- `Confirmation` (`confirmation.dfy`): the two confirmation layouts.
  - Positional: `app.py` and `app_beta_beta.py`, which are identical.
  - 7-digit token: `app_beta.py`.
- `Invoice` (`invoice.dfy`) and `InvoiceProperties` (`invoice_properties.dfy`):
  the invoice parser, with its hand-coded regular expressions.
  - `Pieces`: `app.py` and `app_beta_beta.py`, with the `pcs` quantities.
  - `Grouped`: `app_beta.py`, with digit groups.
- `Reconcile` (`reconcile.dfy`): `compare_orders`, which is identical in all three files.
- `Scenarios` (`scenarios.dfy`): concrete lines and pages worked through the
  model. They show behaviour that is easy to misread in the code.

Behaviour of the code that is easy to misread:
- Quantities are credited to the nearest order line *below* them.
  A page whose order line is followed by its quantity line credits nothing
  (`Scenarios.QuantityBelowAnchorIsLost`).
- No quantity range is checked. The positional confirmation layout accepts
  negative quantities (`Scenarios.NegativeQuantity`) and order numbers of any length.
- The *last* invoice number in the document wins, not the first.
- `int` refuses a digit string longer than 4300 digits (Python's default
  `sys.int_info.default_max_str_digits`). The parsers catch that `ValueError`
  and skip the token, so such a quantity is never credited.
- In the `pcs` layout, `1.234,5 pcs` yields 234, not 1234
  (`Scenarios.PiecesDropsThousands`).
- In the grouped layout, `1234` yields the two quantities 123 and 4
  (`Scenarios.GroupedSplitsFourDigits`).

## Model

| member | source | states |
|---|---|---|
| Text.ParseIntDecimal | app.py:22 | `int` reads back the decimal spelling of every integer, with its sign, when the spelling has at most 4300 digits, and raises (`None`) on a longer one |
| Text.FirstFromSpec | app.py:35 | `re.search` finds nothing exactly when no position matches; otherwise it returns the match at the leftmost matching position |
| Text.LastFoundSpec | app_beta.py:58-61 | a value overwritten by every hit keeps its start when there is no hit; otherwise it ends as the last hit |
| Text.LastFoundAppend | app_beta.py:55-61 | overwriting over two runs of lines is overwriting over the second from where the first ended |
| Text.SplitTokens | app.py:18 | every token of `strip().split()` is non-empty and free of whitespace |
| Text.SplitJoin | app.py:18 | splitting tokens joined by spaces gives the tokens back |
| Text.SplitOnJoin | app.py:32 | `split("\n")` loses nothing: joining the pieces with `\n` gives the page back, and no piece holds `\n` |
| Text.SplitLinesNoBreaks | app.py:14 | no line that `splitlines()` yields holds a line boundary |
| Text.SplitLinesJoin | app.py:14 | on text whose only boundaries are `\n` and that does not end in one, joining the lines with `\n` gives the text back |
| OrderMaps.AddAllSum | app.py:40-43 | crediting a list of quantities one by one adds their sum to the order; an empty list leaves the map untouched and creates no key |
| Confirmation.KeptPages | app_beta.py:35 | empty pages are dropped, every non-empty page is kept, and the list never grows |
| Confirmation.KeptPagesSingle | app_beta.py:35 | a single page is kept exactly when it is not empty |
| Confirmation.KeptPagesAppend | app_beta.py:35 | the filter works page by page, so the kept pages stay in document order, repeats included |
| Confirmation.ExtractPositional | app.py:16-25 | the loop computes the line-by-line fold of the positional credit (the same loop is at app_beta_beta.py:24-33) |
| Confirmation.ExtractConfirmation | app.py:10-26 | the whole document is parsed as the lines of `"\n".join(pages).splitlines()` (the same function is at app_beta_beta.py:18-34) |
| Confirmation.PositionalLine | app.py:19-23 | one line adds its last-token integer to token 3 when it has at least six tokens, token 3 is all digits and the last token is an integer; it changes no other key |
| Confirmation.PositionalSumsAt | app.py:16-25 | an order is present exactly when some qualifying line names it, and its total is the sum over those lines |
| Confirmation.PositionalSums | app_beta_beta.py:24-33 | the same per-order sums, for every order number at once |
| Confirmation.PositionalKeysAreDigits | app.py:19-20 | every positional key is all digits, of any length |
| Confirmation.FirstNumeral | app_beta.py:44-46 | the first candidate is the first all-digit token; there is none when no token is all digits |
| Confirmation.ExtractOrderTokens | app_beta.py:38-47 | the nested loop computes the fold over lines and tokens of the 7-digit-token credit |
| Confirmation.ExtractConfirmationTokens | app_beta.py:32-50 | the whole document, empty pages dropped, parsed by the 7-digit-token layout |
| Confirmation.TokenCreditOfOrderNumber | app_beta.py:41-49 | a 7-digit token is credited with the first all-digit token after it, which may itself be an order number; with none, or when that token is over the digit limit of `int`, it credits nothing |
| Confirmation.TokenCreditsSpec | app_beta.py:41-49 | a token credits order `k` exactly when it is `k`, `k` has seven digits, and some all-digit token within the digit limit follows with no all-digit token between |
| Confirmation.TokenSumsAt | app_beta.py:38-49 | an order is present exactly when some token of some line credits it, and its total is the sum of what every such token credits, so repeated order numbers add up |
| Confirmation.OrderTokenShape | app_beta.py:41-46 | keys are 7-digit order numbers and quantities are never negative |
| Invoice.CreditPieces | app.py:40-45 | the loop adds each `pcs` match's integer part to the current order, in order |
| Invoice.CreditGrouped | app_beta.py:69-74 | the loop adds each separator-stripped group to the current order; a group `int` rejects is skipped |
| Invoice.CreditLine | app.py:38-39 | a non-anchor line with a current order adds all of its quantities to it |
| Invoice.CreditPage | app.py:33-44 | the bottom-up loop with `current_order` computes the reverse scan of the page, starting with no order, for either layout (the same loop is at app_beta_beta.py:46-57 and, with the grouped patterns, at app_beta.py:62-74) |
| Invoice.ExtractOrders | app.py:28-46 | the map is the fold over pages of each page's reverse scan |
| Invoice.ScanInvoiceId | app_beta_beta.py:42-45 | the number after the lines is the last number found, or the starting value |
| Invoice.ExtractOrdersAndId | app_beta.py:52-76 | the orders and the invoice number of the whole document; with the grouped patterns here and with the `pcs` patterns at app_beta_beta.py:36-59 |
| Invoice.ReportId | app_beta_beta.py:119 | the report name is never empty, and it is the invoice number whenever there is one |
| InvoiceProperties.AnchorSpec | app.py:35 | the anchor of a line is absent exactly when the pattern matches nowhere; otherwise it is the leftmost match |
| InvoiceProperties.AnchorIsOrderNumber | app_beta.py:64-66 | an anchor is always a 7-digit order number |
| InvoiceProperties.NearestSpec | app.py:34-37 | the current order at a line is the anchor of the first anchor line below it, and there is none exactly when no line below is an anchor line |
| InvoiceProperties.NearestIsBelow | app.py:34-38 | the current order above line `j` is `k` exactly when the nearest anchor line below `j` anchors `k` |
| InvoiceProperties.ScanSum | app.py:34-44 | a page adds to an order the quantities of exactly the non-anchor lines whose nearest anchor below names it |
| InvoiceProperties.ScanStepKeys | app.py:36-43 | one line adds an order to the map exactly when it credits at least one quantity to it |
| InvoiceProperties.ScanKeys | app.py:34-44 | an order enters the map only through a line that credits it a quantity |
| InvoiceProperties.ScanAttribution | app_beta_beta.py:47-57 | nearest-anchor attribution on a page, both the sums and the keys |
| InvoiceProperties.InvoiceAttribution | app.py:31-33 | an order's total is the sum over pages of what each page credits it on its own; no anchor carries over a page break |
| InvoiceProperties.PageKeys | app.py:33-44 | one page adds an order exactly when one of its lines credits that order a quantity |
| InvoiceProperties.InvoiceKeys | app.py:28-46 | an order is on the invoice exactly when some page credits it at least one quantity through that page's own anchors |
| InvoiceProperties.GroupedFindAllText | app_beta.py:68 | every grouped match starts with a digit and holds only digits and ` `, `.`, `,` |
| InvoiceProperties.GroupTextQuantity | app_beta.py:71-75 | a grouped match normalises to digits, so `int` raises only past the digit limit, and otherwise the value is its digits' value |
| InvoiceProperties.NormalizeDigits | app_beta.py:71 | stripping the separators from a group leaves exactly its digits |
| InvoiceProperties.GroupedQuantitiesOfText | app_beta.py:69-75 | every grouped match within the digit limit yields one quantity, none yields more than one, and none is negative |
| InvoiceProperties.UnitEndNoDigits | app_beta.py:68 | the optional whitespace and unit after a group hold no digit |
| InvoiceProperties.GroupedFindAllDigits | app_beta.py:68-71 | the groups, separators stripped, spell out exactly the digits of the line in order; no digit is lost or read twice |
| InvoiceProperties.PiecesMatchText | app.py:39 | a `pcs` match captures a numeral `\d+([.,]\d*)?` |
| InvoiceProperties.PiecesFindAllText | app_beta_beta.py:52-55 | every `pcs` group is such a numeral, so `int(float(...))` is its integer part and never raises |
| InvoiceProperties.PiecesQuantitiesNonNegative | app.py:39-42 | one quantity per `pcs` match, never negative |
| InvoiceProperties.LineQuantitiesNonNegative | app_beta.py:68-72 | neither layout reads a negative quantity |
| InvoiceProperties.ReadPageSound | app.py:34-39 | every line of a page reads as an order-number anchor or none, with non-negative quantities |
| InvoiceProperties.ScanShape | app.py:34-43 | a page scan keeps keys 7-digit order numbers and totals non-negative |
| InvoiceProperties.InvoiceShape | app_beta.py:55-75 | an invoice map has only 7-digit keys and non-negative totals |
| InvoiceProperties.InvoiceIdAtShape | app_beta.py:59 | a number the invoice pattern captures is non-empty word characters and `-` |
| InvoiceProperties.InvoiceIdSpec | app_beta_beta.py:43 | a line's invoice number is absent exactly when the pattern matches nowhere; otherwise it is the leftmost match |
| InvoiceProperties.InvoiceIdShape | app_beta.py:59-61 | an invoice number found in a line is non-empty word characters and `-` |
| InvoiceProperties.LineIdsAppend | app_beta.py:57-61 | searching the lines of two runs is searching each run in turn |
| InvoiceProperties.InvoiceIdLastLine | app_beta_beta.py:38-45 | the invoice number survives page breaks: it is the result of overwriting over all lines of all pages in document order |
| InvoiceProperties.ReportIdOfDocument | app_beta_beta.py:119 | the report is filed under `Faktura` when no line carries a number, and otherwise under the number on the last line that does |
| Reconcile.LessIrreflexive | app.py:51 | no string sorts before itself |
| Reconcile.LessTransitive | app.py:51 | the string order is transitive |
| Reconcile.LessTotal | app.py:51 | any two different strings are ordered one way round |
| Reconcile.InsertSpec | app.py:51 | inserting a new key keeps the list ascending, adds exactly that key and grows it by one |
| Reconcile.SortedKeys | app.py:51 | `sorted` of the key set is strictly ascending and lists every key exactly once |
| Reconcile.CompareOrders | app.py:48-60 | one row per key of either map, strictly ascending, each with both quantities defaulting to 0 and the flag (the same function is at app_beta.py:78-90 and app_beta_beta.py:61-73) |
| Reconcile.BuildRows | app.py:51-59 | the loop over the sorted order numbers yields, in that order, one row per order number with `get(order, 0)` on both sides and the flag |
| Reconcile.ReportFlags | app.py:58 | every flag is `JA` or `NEJ`, and `JA` exactly when the two quantities are equal |
| Reconcile.ReportAllMatch | app_beta.py:80-89 | every row says `JA` exactly when the two maps agree on every order number, a missing one counting as 0 |
| Reconcile.AscendingUnique | app_beta_beta.py:64 | two strictly ascending lists of the same keys are the same list |
| Reconcile.OrdersOfReport | app_beta_beta.py:63-72 | the order numbers of a report are ascending and are exactly the keys of either map |
| Reconcile.ReportUnique | app_beta_beta.py:61-73 | the report is determined by the two maps: rows, their order and their number |
| Scenarios.GroupedSplitsFourDigits | app_beta.py:68 | `1234` is read as the groups `123` and `4` |
| Scenarios.GroupedReadsThousands | app_beta.py:68-72 | `1.234` is the single quantity 1234 |
| Scenarios.PiecesDropsThousands | app.py:39-42 | `1.234,5 pcs` yields the quantity 234 |
| Scenarios.SpacedAnchor | app_beta.py:64 | `Order :1234567` is an anchor for the grouped pattern but not for the `pcs` pattern of app.py:35 |
| Scenarios.QuantityBelowAnchorIsLost | app.py:34-38 | a quantity line below its order line is credited to nothing |
| Scenarios.QuantityAboveAnchorIsCredited | app.py:34-43 | a quantity line above its order line is credited to it |
| Scenarios.NegativeQuantity | app.py:19-23 | a positional line whose last token is `-5` takes 5 from its order |
| Scenarios.ChainedOrderNumbers | app_beta.py:41-47 | in `1234567 7654321 5`, the first order gets 7654321 and the second gets 5 |

## Left out

- The Streamlit interface is not modelled: page setup, styling, tabs, uploads, buttons and tables.
- PDF text extraction (PyPDF2, pdfplumber) is foreign code. Documents enter the model as the text of each page.
  A page whose extraction returns `None` raises in `"\n".join` or `.split` at app.py:13 and 32,
  app_beta_beta.py:21 and 41, and app_beta.py:57; that failure is not modelled. At app_beta.py:35
  the `if page.extract_text()` filter drops a `None` page just as it drops an empty one, which
  `Confirmation.KeptPages` models.
- The PDF report, the history and review viewers, the file-system writes and the time-stamped file name are I/O and are not modelled.
  The model stops at the report rows and at the name `faktura_id or "Faktura"`.
- The pandas `DataFrame` is modelled as a sequence of `Reconcile.Row` records.
- The order-check page (`orderkontroll`, app_beta_beta.py:133-134) is a placeholder with no logic.
- Digits are ASCII in the model. Python also accepts other Unicode digits: `isdigit` accepts non-decimal ones too, such as `²`, so such a token can become a positional key. `\d` and `int` accept the other Unicode decimal digits. `int` also accepts underscores between digits and surrounding whitespace.
- Word characters (`\w`) in the invoice-number pattern are ASCII in the model. Python's `\w` also matches other Unicode letters and digits.
- Case-insensitive matching covers ASCII letters plus the two non-ASCII characters Python folds onto `k` and `s` (the Kelvin sign and the long s). No other Unicode case folding is modelled.
- `int(float(...))` in the `pcs` layout is modelled as the exact integer part of the numeral.
  Float rounding is not modelled: digit runs beyond 2^53 lose precision, and runs past the float range raise `OverflowError`.
- The digit limit of `int` is fixed at 4300, the default of current Python releases. An interpreter without the limit, or one where the limit has been changed, is not modelled.
