/**
 The compound search predicate and the filter that `filterTransactions`
 applies to the whole transaction list.
 */
module Filtering {
  import opened Text
  import opened Records

  /** The name test: the lower-cased owner name ("" when unresolved) contains the name term. */
  predicate NameMatches(t: Transaction, customers: seq<Customer>, nameTerm: string): (b: bool)
    ensures nameTerm == "" ==> b
    ensures b ==> |nameTerm| <= |FilterLabel(t, customers)|
  {
    Includes(FilterLabel(t, customers), nameTerm)
  }

  /** The amount test: `amount.toString()` contains the amount term, as text. */
  predicate AmountMatches(t: Transaction, amountTerm: string): (b: bool)
    ensures amountTerm == "" ==> b
    ensures amountTerm == DecimalString(t.amount) ==> b
    ensures b ==> |amountTerm| <= |DecimalString(t.amount)|
  {
    Includes(DecimalString(t.amount), amountTerm)
  }

  /** A transaction stays visible when both tests pass. */
  predicate Keeps(t: Transaction, customers: seq<Customer>, nameTerm: string, amountTerm: string): (b: bool)
    ensures nameTerm == "" && amountTerm == "" ==> b
  {
    NameMatches(t, customers, nameTerm) && AmountMatches(t, amountTerm)
  }

  /** `transactions.filter(...)` with the predicate above. */
  function FilterTransactions(ts: seq<Transaction>, customers: seq<Customer>, nameTerm: string, amountTerm: string): (r: seq<Transaction>)
    ensures |r| <= |ts|
    decreases |ts|
  {
    if ts == [] then []
    else (if Keeps(ts[0], customers, nameTerm, amountTerm) then [ts[0]] else [])
         + FilterTransactions(ts[1..], customers, nameTerm, amountTerm)
  }

  /** r lists, in order, the elements of s at the strictly increasing positions idx, and idx
      holds exactly the positions whose element satisfies keep. */
  ghost predicate StableSelection<T>(r: seq<T>, s: seq<T>, keep: T -> bool, idx: seq<int>) {
    PicksAt(r, s, idx) && Increasing(idx) && ExactlyKept(s, keep, idx)
  }

  ghost predicate PicksAt<T>(r: seq<T>, s: seq<T>, idx: seq<int>) {
    |idx| == |r| && forall k :: 0 <= k < |idx| ==> 0 <= idx[k] < |s| && r[k] == s[idx[k]]
  }

  ghost predicate Increasing(idx: seq<int>) {
    forall k, l :: 0 <= k < l < |idx| ==> idx[k] < idx[l]
  }

  ghost predicate ExactlyKept<T>(s: seq<T>, keep: T -> bool, idx: seq<int>) {
    forall i :: 0 <= i < |s| ==> (i in idx <==> keep(s[i]))
  }

  function Shifted(idx: seq<int>): (r: seq<int>)
    ensures |r| == |idx| && forall k :: 0 <= k < |idx| ==> r[k] == idx[k] + 1
  {
    seq(|idx|, k requires 0 <= k < |idx| => idx[k] + 1)
  }

  /** The positions kept from s, given those kept from s[1..]. */
  function ConsPositions<T>(s: seq<T>, keep: T -> bool, idx': seq<int>): (idx: seq<int>)
    requires s != []
  {
    (if keep(s[0]) then [0] else []) + Shifted(idx')
  }

  lemma PicksAtCons<T>(s: seq<T>, keep: T -> bool, rest: seq<T>, idx': seq<int>)
    requires s != [] && PicksAt(rest, s[1..], idx') && (forall k :: 0 <= k < |idx'| ==> 0 <= idx'[k])
    ensures PicksAt((if keep(s[0]) then [s[0]] else []) + rest, s, ConsPositions(s, keep, idx'))
    ensures forall k :: 0 <= k < |ConsPositions(s, keep, idx')| ==> 0 <= ConsPositions(s, keep, idx')[k]
  {
  }

  lemma IncreasingCons<T>(s: seq<T>, keep: T -> bool, idx': seq<int>)
    requires s != [] && Increasing(idx') && (forall k :: 0 <= k < |idx'| ==> 0 <= idx'[k])
    ensures Increasing(ConsPositions(s, keep, idx'))
  {
  }

  lemma ExactlyKeptCons<T>(s: seq<T>, keep: T -> bool, idx': seq<int>)
    requires s != [] && ExactlyKept(s[1..], keep, idx') && (forall k :: 0 <= k < |idx'| ==> 0 <= idx'[k])
    ensures ExactlyKept(s, keep, ConsPositions(s, keep, idx'))
  {
  }

  /** The test the filter applies, as a function value. */
  function KeepTest(customers: seq<Customer>, nameTerm: string, amountTerm: string): (keep: Transaction -> bool) {
    t => Keeps(t, customers, nameTerm, amountTerm)
  }

  /** The filter keeps the passing transactions, all of them, once each, in their original order. */
  lemma {:induction false} FilterIsStableSelection(ts: seq<Transaction>, customers: seq<Customer>,
                                                   nameTerm: string, amountTerm: string)
    ensures exists idx :: StableSelection(FilterTransactions(ts, customers, nameTerm, amountTerm), ts,
                                          KeepTest(customers, nameTerm, amountTerm), idx)
  {
    var idx := KeptPositions(ts, customers, nameTerm, amountTerm);
    assert StableSelection(FilterTransactions(ts, customers, nameTerm, amountTerm), ts,
                           KeepTest(customers, nameTerm, amountTerm), idx);
  }

  /** The positions the filter keeps, as a witness for FilterIsStableSelection. */
  lemma {:induction false} KeptPositions(ts: seq<Transaction>, customers: seq<Customer>,
                                         nameTerm: string, amountTerm: string) returns (idx: seq<int>)
    ensures StableSelection(FilterTransactions(ts, customers, nameTerm, amountTerm), ts,
                            KeepTest(customers, nameTerm, amountTerm), idx)
    ensures forall k :: 0 <= k < |idx| ==> 0 <= idx[k]
    decreases |ts|
  {
    var keep := KeepTest(customers, nameTerm, amountTerm);
    if ts == [] {
      idx := [];
    } else {
      var rest := FilterTransactions(ts[1..], customers, nameTerm, amountTerm);
      var idx' := KeptPositions(ts[1..], customers, nameTerm, amountTerm);
      PicksAtCons(ts, keep, rest, idx');
      IncreasingCons(ts, keep, idx');
      ExactlyKeptCons(ts, keep, idx');
      idx := ConsPositions(ts, keep, idx');
    }
  }

  /** A transaction is visible exactly when it is in the list and passes both tests. */
  lemma {:induction false} FilterMembership(ts: seq<Transaction>, customers: seq<Customer>,
                                            nameTerm: string, amountTerm: string, t: Transaction)
    ensures t in FilterTransactions(ts, customers, nameTerm, amountTerm) <==>
            t in ts && Keeps(t, customers, nameTerm, amountTerm)
    decreases |ts|
  {
    if ts != [] {
      FilterMembership(ts[1..], customers, nameTerm, amountTerm, t);
      var head := if Keeps(ts[0], customers, nameTerm, amountTerm) then [ts[0]] else [];
      assert FilterTransactions(ts, customers, nameTerm, amountTerm) ==
        head + FilterTransactions(ts[1..], customers, nameTerm, amountTerm);
      assert t in ts <==> t == ts[0] || t in ts[1..] by {
        assert ts == [ts[0]] + ts[1..];
      }
    }
  }

  /** With both terms empty, the initial state, every transaction is visible. */
  lemma {:induction false} FilterWithEmptyTerms(ts: seq<Transaction>, customers: seq<Customer>)
    ensures FilterTransactions(ts, customers, "", "") == ts
    decreases |ts|
  {
    if ts != [] {
      FilterWithEmptyTerms(ts[1..], customers);
    }
  }

  /** An unresolved owner has filter label "", so the transaction passes only with an empty name
      term, although the chart and the table call it "Unknown". */
  lemma UnresolvedPassesOnlyWithEmptyName(t: Transaction, customers: seq<Customer>,
                                          nameTerm: string, amountTerm: string)
    requires forall i :: 0 <= i < |customers| ==> customers[i].id != t.customerId
    ensures Keeps(t, customers, nameTerm, amountTerm) <==> nameTerm == "" && AmountMatches(t, amountTerm)
    ensures PieLabel(t, customers) == "Unknown"
  {
  }

  /** A name term with an ASCII capital hides every transaction, which is why the name handler
      lower-cases what was typed before filtering. */
  lemma CapitalInNameTermHidesAll(t: Transaction, customers: seq<Customer>,
                                  nameTerm: string, amountTerm: string, k: int)
    requires 0 <= k < |nameTerm| && IsUpperAscii(nameTerm[k])
    ensures !Keeps(t, customers, nameTerm, amountTerm)
  {
    match FindCustomer(customers, t.customerId)
    case Some(c) =>
      LowerNeverIncludesCapital(c.name, nameTerm, k);
    case None =>
  }

  /** The amount term is a text match, not a numeric comparison: the text of an amount is found
      in the text of every non-negative amount that extends it by one digit. */
  lemma AmountTermMatchesLongerAmounts(t: Transaction, n: nat, d: nat)
    requires 0 < n && d < 10 && t.amount == 10 * n + d
    ensures AmountMatches(t, DecimalString(n))
  {
  }

  /** The amount term "3" matches the amount 30. */
  lemma AmountThreeMatchesThirty(t: Transaction)
    requires t.amount == 30
    ensures AmountMatches(t, "3")
  {
  }

  /** Case-insensitive name search: typed terms that differ only in ASCII case, run through the
      name handler's lower-casing, select the same transactions, whatever case the directory
      spells the names in. */
  lemma NameTestIgnoresCase(t: Transaction, cs: seq<Customer>, cs': seq<Customer>, typed: string, typed': string)
    requires SameUpToNameCase(cs, cs') && EqualUpToCase(typed, typed')
    ensures NameMatches(t, cs, ToLower(typed)) == NameMatches(t, cs', ToLower(typed'))
  {
    ToLowerEqualIffEqualUpToCase(typed, typed');
    FilterLabelIgnoresNameCase(t, cs, cs');
  }

  /** The filter as a whole is blind to ASCII case in the typed name and in the directory. */
  lemma {:induction false} FilterIgnoresCase(ts: seq<Transaction>, cs: seq<Customer>, cs': seq<Customer>,
                                             typed: string, typed': string, amountTerm: string)
    requires SameUpToNameCase(cs, cs') && EqualUpToCase(typed, typed')
    ensures FilterTransactions(ts, cs, ToLower(typed), amountTerm) == FilterTransactions(ts, cs', ToLower(typed'), amountTerm)
    decreases |ts|
  {
    if ts != [] {
      NameTestIgnoresCase(ts[0], cs, cs', typed, typed');
      FilterIgnoresCase(ts[1..], cs, cs', typed, typed', amountTerm);
    }
  }
}
