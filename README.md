# Transaction search and per-customer totals of the dashboard's `Home` component

This project models the logic inside the `Home` component of a React dashboard that lists
financial transactions joined against a customer directory. It covers five pieces:

- **The join.** Each transaction names its owner by `customer_id`. `customers.find` returns the
  first customer with that id, or nothing.
- **The search predicate.** A transaction stays visible when two tests pass. The lower-cased owner
  name must contain the name term; an unresolved owner counts as `""`. The text of the amount must
  contain the amount term.
- **The two search handlers.** The name handler lower-cases what was typed and stores it. The
  amount handler stores its text as typed. Each then rescans the full transaction list with the
  new term and the other, stored term.
- **The data load.** It stores the fetched customers and transactions and shows every transaction.
  A failed fetch changes nothing.
- **The pie-chart data.** One pass over the visible transactions fills a dictionary from label to
  running total. The label is the owner's name as written, or `"Unknown"`. The dictionary's keys
  are then listed in insertion order, each with its total.

Layout, one module per file:

- `text.dfy` (`Text`): the string operations the search uses. These are ASCII `toLowerCase`,
  `includes` with an occurrence-based reference definition, and the decimal text of an integer
  amount with a parser that reads it back.
- `records.dfy` (`Records`): `Customer`, `Transaction`, the lookup `FindCustomer`, and the two
  labels a transaction gets (`FilterLabel` for the search, `PieLabel` for the chart and the table).
- `filtering.dfy` (`Filtering`): the predicate `Keeps`, the filter `FilterTransactions`, and the
  lemmas about them.
- `grouping.dfy` (`Grouping`): the chart as functions. `GroupTotals` is the dictionary,
  `FirstSeen` its key order and `PieChart` the entries. Reference sums and the chart's lemmas sit
  beside them.
- `home.dfy` (`HomeComponent`): class `Home` with the component's five state fields, the
  handlers, the load, and `PieData`. `PieData` and its scan `GroupByName` are the loops of
  `getPieChartData`, proved equal to `PieChart`.
- `scenarios.dfy` (`Scenarios`): worked examples on one customer and two transactions, and two
  client sessions of the class.

Customer and transaction ids are modelled as `int`, compared with `==` as the source's `===` does.
Amounts are `int`.

## Model

| member | source | states |
|---|---|---|
| `Records.FindCustomer` | src/Component/Home/Home.jsx:42 | returns nothing iff no customer has the id; otherwise a customer with that id that no earlier customer's id equals (the first match) |
| `Records.LaterDuplicateIgnored` | src/Component/Home/Home.jsx:42 | a customer appended after the list is found only when no earlier customer has the id |
| `Records.FilterLabel` | src/Component/Home/Home.jsx:42-43 | the search label never holds an ASCII capital; with `LabelsOfTransaction` it is the lower-cased owner name, or "" when the owner is unresolved |
| `Records.PieLabel` | src/Component/Home/Home.jsx:56-57 | the chart label is "Unknown" or the name of a customer whose id is the transaction's owner id; `LabelsOfTransaction` ties it to the search label |
| `Records.FilterLabelIgnoresNameCase` | src/Component/Home/Home.jsx:42-43 | two directories with the same ids whose names differ only in ASCII case give every transaction the same search label |
| `Records.LabelsOfTransaction` | src/Component/Home/Home.jsx:42-57 | for a resolved owner the filter label is the lower-cased chart label; for an unresolved one the filter label is "" and the chart label is "Unknown" |
| `Text.LowerChar` | src/Component/Home/Home.jsx:43 | the folded character is never an ASCII capital, only capitals are changed, and a capital becomes the lower-case letter at the same alphabet position |
| `Text.ToLower` | src/Component/Home/Home.jsx:29 | the lower-cased text has the input's length and no ASCII capital; `ToLowerEqualIffEqualUpToCase` fixes which strings it identifies |
| `Text.ToLowerEqualIffEqualUpToCase` | src/Component/Home/Home.jsx:29 | two strings lower-case to the same text iff they agree position by position up to ASCII case (both directions) |
| `Text.ToLowerIdempotent` | src/Component/Home/Home.jsx:29 | lower-casing an already lower-cased term leaves it unchanged |
| `Text.Includes` | src/Component/Home/Home.jsx:44-45 | the empty term is contained in every text, and a contained term is no longer than the text; `IncludesIffOccurs` gives its meaning |
| `Text.IncludesIffOccurs` | src/Component/Home/Home.jsx:44-45 | `includes` holds iff the term occurs at some position of the text (both directions) |
| `Text.LowerNeverIncludesCapital` | src/Component/Home/Home.jsx:43-45 | a term holding an ASCII capital is never contained in a lower-cased text |
| `Text.DecimalString` | src/Component/Home/Home.jsx:44 | the text of an amount is non-empty and starts with '-' iff the amount is negative; `DecimalRoundTrip` and `DecimalStringInjective` carry its meaning |
| `Text.NatDigits` | src/Component/Home/Home.jsx:44 | the digits of a natural number are non-empty, all decimal digits, and start with '0' only for zero |
| `Text.DecimalRoundTrip` | src/Component/Home/Home.jsx:44 | the text of an amount is canonical decimal and parses back to the amount |
| `Text.DecimalStringInjective` | src/Component/Home/Home.jsx:44 | different amounts have different text |
| `Text.AppendedDigitKeepsPrefix` | src/Component/Home/Home.jsx:44 | the text of 10·n+d starts with, and so contains, the text of n for n > 0 |
| `Filtering.NameMatches` | src/Component/Home/Home.jsx:43-45 | the empty name term passes every transaction, and a passing term is no longer than the search label; `UnresolvedPassesOnlyWithEmptyName`, `CapitalInNameTermHidesAll` and `NameTestIgnoresCase` carry the rest |
| `Filtering.AmountMatches` | src/Component/Home/Home.jsx:44 | the empty amount term and the amount's own full text both pass, and a passing term is no longer than the amount's text; `AmountTermMatchesLongerAmounts` shows the match is textual |
| `Filtering.Keeps` | src/Component/Home/Home.jsx:42-45 | with both terms empty every transaction passes; `FilterMembership` ties it to visibility |
| `Filtering.NameTestIgnoresCase` | src/Component/Home/Home.jsx:28-45 | typed terms that differ only in ASCII case, lower-cased as the name handler does, pass the same transactions, whatever case the directory spells the names in |
| `Filtering.FilterIgnoresCase` | src/Component/Home/Home.jsx:28-46 | the whole filtered list is the same for typed terms, and for directories, that differ only in ASCII case |
| `Filtering.FilterTransactions` | src/Component/Home/Home.jsx:41-46 | the filtered list is never longer than the full list |
| `Filtering.FilterIsStableSelection` | src/Component/Home/Home.jsx:40-46 | the filtered list is the full list's elements at strictly increasing positions, and those positions are exactly the ones whose transaction passes both tests |
| `Filtering.FilterMembership` | src/Component/Home/Home.jsx:41-45 | a transaction is visible iff it is in the full list and passes the name test and the amount test |
| `Filtering.FilterWithEmptyTerms` | src/Component/Home/Home.jsx:40-46 | with both terms empty, the initial values, the filter returns the full list unchanged |
| `Filtering.UnresolvedPassesOnlyWithEmptyName` | src/Component/Home/Home.jsx:42-45 | a transaction whose owner id matches nobody passes iff the name term is empty and the amount test passes, though its chart label is "Unknown" |
| `Filtering.CapitalInNameTermHidesAll` | src/Component/Home/Home.jsx:43-45 | a name term holding an ASCII capital hides every transaction, resolved or not |
| `Filtering.AmountTermMatchesLongerAmounts` | src/Component/Home/Home.jsx:44 | the amount test is a text match: the text of n matches every amount 10·n+d |
| `Filtering.AmountThreeMatchesThirty` | src/Component/Home/Home.jsx:44 | the amount term "3" matches the amount 30 |
| `Grouping.GroupTotals` | src/Component/Home/Home.jsx:52-64 | no ensures of its own; `KeyIffListed` ties its keys to `FirstSeen`, `KeysAreLabels` ties them to the labels, and `TotalsAreSums` gives the totals |
| `Grouping.FirstSeen` | src/Component/Home/Home.jsx:52-66 | the key list is no longer than the scanned list; `FirstSeenDistinct` and `KeysAreLabels` give its contents and `PieFollowsFirstAppearance` its order |
| `Grouping.PieChart` | src/Component/Home/Home.jsx:66-69 | the chart has at most one entry per visible transaction; `PieNamesDistinct`, `PieNamesAreLabels`, `PieValuesAreSums`, `PieFollowsFirstAppearance` and `PieConservesTotal` carry its properties |
| `Grouping.ScanStep` | src/Component/Home/Home.jsx:55-64 | one scan step adds the amount to its label's total, or starts the total and appends the label to the key order |
| `Grouping.KeyIffListed` | src/Component/Home/Home.jsx:59-66 | a label is a key of the dictionary iff it is in the insertion-order key list |
| `Grouping.KeysAreLabels` | src/Component/Home/Home.jsx:55-64 | the dictionary's keys, as a set and as the ordered key list, are exactly the labels of the scanned transactions |
| `Grouping.TotalsAreSums` | src/Component/Home/Home.jsx:55-64 | each dictionary total is the sum of the amounts carrying its label; a label not in the dictionary sums to 0 |
| `Grouping.FirstSeenDistinct` | src/Component/Home/Home.jsx:59-63 | the key list holds no label twice |
| `Grouping.PieChartStep` | src/Component/Home/Home.jsx:55-69 | appending a transaction either adds its amount to the entry of its label or appends a new entry for it |
| `Grouping.PieNamesDistinct` | src/Component/Home/Home.jsx:52-69 | no name appears in two entries |
| `Grouping.PieNamesAreLabels` | src/Component/Home/Home.jsx:55-69 | a name has an entry iff some visible transaction carries that label (both directions) |
| `Grouping.PieValuesAreSums` | src/Component/Home/Home.jsx:55-69 | each entry's value is the sum of the amounts of the visible transactions with its name |
| `Grouping.PieStepSum` | src/Component/Home/Home.jsx:55-69 | scanning one more transaction adds exactly its amount to the sum of the entries' values |
| `Grouping.PieConservesTotal` | src/Component/Home/Home.jsx:51-71 | the entries' values add up to the total amount of the visible transactions |
| `Grouping.PieFollowsFirstAppearance` | src/Component/Home/Home.jsx:55-69 | for entries i < j, the label of entry i first appears before the label of entry j, whatever the labels spell |
| `Grouping.PieEmptyIffNoTransactions` | src/Component/Home/Home.jsx:51-71 | the chart is empty iff no transaction is visible |
| `HomeComponent.Home.constructor` | src/Component/Home/Home.jsx:6-10 | both terms and all three lists start empty, and the visible list agrees with the filter |
| `HomeComponent.Home.Load` | src/Component/Home/Home.jsx:14-22 | a delivered dataset sets customers and transactions, and every transaction is visible; a failed fetch leaves the state unchanged; the visible list is guaranteed to agree with the filter when both terms are still empty |
| `HomeComponent.Home.LoadAndRefilter` | src/Component/Home/Home.jsx:16-18 | the corrected load: after it the visible list is the filter of the new lists under the stored terms |
| `HomeComponent.Home.Refilter` | src/Component/Home/Home.jsx:40-48 | the visible list is replaced by the filter of the full list, never of the previous visible list |
| `HomeComponent.Home.OnNameChange` | src/Component/Home/Home.jsx:28-32 | stores the lower-cased text, keeps the amount term and both lists, and makes the visible list the filter under the new name term and the kept amount term; typing the same text in another ASCII case would give the same list |
| `HomeComponent.Home.OnAmountChange` | src/Component/Home/Home.jsx:34-38 | stores the text unchanged, keeps the name term and both lists, and makes the visible list the filter under the kept name term and the new amount term; since the stored name term is lower-case, this is also the filter under the name handler's lower-casing of it |
| `HomeComponent.GroupByName` | src/Component/Home/Home.jsx:52-64 | the `forEach` loop, truthiness test included, builds exactly the dictionary `GroupTotals` and the key order `FirstSeen` of the list |
| `HomeComponent.Home.PieData` | src/Component/Home/Home.jsx:51-72 | returns exactly `PieChart` of the visible list, whose names are distinct and whose values add up to the visible total |
| `Scenarios.NoTerms` | src/Component/Home/Home.jsx:40-71 | with no terms both transactions are visible, and the chart of the filtered list is [Alice 50, Unknown 30] |
| `Scenarios.NameTerm` | src/Component/Home/Home.jsx:40-71 | the name term "ali" leaves only Alice's transaction, and the chart of the filtered list is [Alice 50] |
| `Scenarios.AmountTerm` | src/Component/Home/Home.jsx:40-71 | the amount term "3" leaves only the 30, and the chart of the filtered list is [Unknown 30] |
| `Scenarios.NoMatch` | src/Component/Home/Home.jsx:40-71 | "ali" with "9" leaves nothing, and the chart of the filtered list is empty |
| `Scenarios.PendingNameTermHidesAll` | src/Component/Home/Home.jsx:40-46 | the name term "bob" hides both transactions of the example |
| `Scenarios.TypedBeforeLoad` | src/Component/Home/Home.jsx:12-31 | typing "Bob" and then loading shows both transactions; the corrected load shows none |
| `Scenarios.EditSession` | src/Component/Home/Home.jsx:28-72 | a sequence of edits keeps the other term each time; clearing both terms shows every transaction again, charted as [Alice 50, Unknown 30] |

## Left out

- The HTTP request, `useEffect` and the console logging (lines 12-26) are not modelled. `Load` takes
  the fetch's outcome as a parameter; `None` stands for a failed request.
- JSX rendering, the recharts pie and the Tailwind markup (lines 74-192) are left out. The table's
  "Customer Name" cell (line 167) uses the same rule as `Records.PieLabel`.
- React's asynchronous state batching is not modelled. Each handler is one atomic update that reads
  the terms committed before it.
- `Text.ToLower`: only ASCII capitals are folded; JavaScript's full Unicode `toLowerCase` is not modelled.
- `Text.DecimalString`: amounts are integers, and the model prints every digit. The two agree
  only for |n| <= 2^53. Above 2^53, JavaScript prints the shortest digits that round-trip to the
  same double, padded with zeros. For example, 2^60 prints as "1152921504606847000", so the amount
  term "976" hides it there but the model keeps it. Fractional amounts and the exponent form at
  10^21 and above are not modelled either. All of these are floating-point formatting.
- `Grouping.GroupTotals`: totals are exact integers. JavaScript adds doubles, which lose integer
  precision beyond 2^53.
- `HomeComponent.Home.PieData`: keys are emitted in plain insertion order. `Object.keys` lists
  integer-like keys (a customer named "123") first, in numeric order; that is not modelled.
- `HomeComponent.Home.PieData`: the dictionary is a plain map. On a JavaScript object a customer
  named "constructor", "toString" or "__proto__" hits an inherited property; that is not modelled.
- The records' `date` field is carried but never used by the logic, as in the source.

## Findings

| source | as written | input that shows it | evidently intended | confidence | as-written member | corrected member |
|---|---|---|---|---|---|---|
| src/Component/Home/Home.jsx:16-18 | the load sets the visible list to all transactions, ignoring any search term already stored | type "Bob" in the name field before the request resolves, with data [Alice 50, Unknown 30]: the field reads "Bob" and the stored term is "bob", yet both rows are shown | the visible list is the filter of the loaded transactions under the stored terms | medium, not executed | `HomeComponent.Home.Load`, `Scenarios.TypedBeforeLoad` | `HomeComponent.Home.LoadAndRefilter` |
