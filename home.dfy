/**
 The `Home` component's state and the operations that change or read it:
 the two search handlers, the filter they both run, the data load, and the
 pie-chart data computed from the visible transactions.
 */
module HomeComponent {
  import opened Text
  import opened Records
  import opened Filtering
  import opened Grouping

  /** What the data source delivers: a customer list and a transaction list. */
  datatype Dataset = Dataset(customers: seq<Customer>, transactions: seq<Transaction>)

  class Home {
    var nameSearch: string
    var amountSearch: string
    var customers: seq<Customer>
    var transactions: seq<Transaction>
    var filteredTransactions: seq<Transaction>

    /** The visible list is the filter of the full list under the two stored terms. */
    ghost predicate InSync()
      reads this
    {
      filteredTransactions == FilterTransactions(transactions, customers, nameSearch, amountSearch)
    }

    /** The stored name term is always in lower case, so refiltering with it is the same as
        running the name handler's lower-casing again. */
    ghost predicate NameTermLowered()
      reads this
    {
      ToLower(nameSearch) == nameSearch
    }

    /** The state before anything is loaded or typed: empty terms, empty lists. */
    constructor ()
      ensures nameSearch == "" && amountSearch == ""
      ensures customers == [] && transactions == [] && filteredTransactions == []
      ensures InSync() && NameTermLowered()
    {
      nameSearch, amountSearch := "", "";
      customers, transactions, filteredTransactions := [], [], [];
    }

    /** Stores the fetched lists, and shows every transaction; a failed fetch changes nothing. */
    method Load(fetched: Option<Dataset>)
      modifies this
      ensures nameSearch == old(nameSearch) && amountSearch == old(amountSearch)
      ensures fetched.Some? ==>
        customers == fetched.value.customers && transactions == fetched.value.transactions &&
        filteredTransactions == fetched.value.transactions
      ensures fetched.None? ==>
        customers == old(customers) && transactions == old(transactions) &&
        filteredTransactions == old(filteredTransactions)
      ensures fetched.Some? && nameSearch == "" && amountSearch == "" ==> InSync()
    {
      match fetched
      case Some(data) =>
        customers := data.customers;
        transactions := data.transactions;
        filteredTransactions := data.transactions;
        FilterWithEmptyTerms(transactions, customers);
      case None =>
    }

    /** Load as evidently intended: the fetched list is filtered under the terms already typed. */
    method LoadAndRefilter(fetched: Option<Dataset>)
      requires InSync()
      modifies this
      ensures nameSearch == old(nameSearch) && amountSearch == old(amountSearch)
      ensures fetched.Some? ==> customers == fetched.value.customers && transactions == fetched.value.transactions
      ensures fetched.None? ==> customers == old(customers) && transactions == old(transactions)
      ensures InSync()
      ensures nameSearch == "" && amountSearch == "" ==> filteredTransactions == transactions
    {
      if fetched.Some? {
        customers := fetched.value.customers;
        transactions := fetched.value.transactions;
        Refilter(nameSearch, amountSearch);
      }
      FilterWithEmptyTerms(transactions, customers);
    }

    /** `filterTransactions`: rescans the full list with the given terms and stores the result. */
    method Refilter(nameTerm: string, amountTerm: string)
      modifies this`filteredTransactions
      ensures filteredTransactions == FilterTransactions(transactions, customers, nameTerm, amountTerm)
    {
      filteredTransactions := FilterTransactions(transactions, customers, nameTerm, amountTerm);
    }

    /** `handleNameSearchChange`: stores the typed text lower-cased and refilters with it and the
        stored amount term. */
    method OnNameChange(typed: string)
      modifies this
      ensures nameSearch == ToLower(typed)
      ensures amountSearch == old(amountSearch)
      ensures customers == old(customers) && transactions == old(transactions)
      ensures filteredTransactions == FilterTransactions(transactions, customers, ToLower(typed), old(amountSearch))
      ensures InSync() && NameTermLowered()
      ensures forall other :: EqualUpToCase(other, typed) ==>
        filteredTransactions == FilterTransactions(transactions, customers, ToLower(other), amountSearch)
    {
      var searchTerm := ToLower(typed);
      nameSearch := searchTerm;
      Refilter(searchTerm, amountSearch);
      ToLowerIdempotent(typed);
      forall other | EqualUpToCase(other, typed)
        ensures filteredTransactions == FilterTransactions(transactions, customers, ToLower(other), amountSearch)
      {
        ToLowerEqualIffEqualUpToCase(other, typed);
      }
    }

    /** `handleAmountSearchChange`: stores the typed text as it is and refilters with it and the
        stored name term. */
    method OnAmountChange(typed: string)
      modifies this
      ensures amountSearch == typed
      ensures nameSearch == old(nameSearch)
      ensures customers == old(customers) && transactions == old(transactions)
      ensures filteredTransactions == FilterTransactions(transactions, customers, old(nameSearch), typed)
      ensures InSync()
      ensures old(NameTermLowered()) ==> NameTermLowered()
      ensures NameTermLowered() ==>
        filteredTransactions == FilterTransactions(transactions, customers, ToLower(nameSearch), typed)
    {
      var searchTerm := typed;
      amountSearch := searchTerm;
      Refilter(nameSearch, searchTerm);
    }

    /** `getPieChartData`: the totals of the visible transactions by label, listed in the
        dictionary's insertion order as `{name, value}` entries. */
    method PieData() returns (entries: seq<PieEntry>)
      ensures entries == PieChart(filteredTransactions, customers)
      ensures SumValues(entries) == Total(filteredTransactions)
      ensures forall i, j :: 0 <= i < j < |entries| ==> entries[i].name != entries[j].name
    {
      var ts, cs := filteredTransactions, customers;
      var grouped, keys := GroupByName(ts, cs);
      entries := [];
      var j := 0;
      while j < |keys|
        invariant 0 <= j <= |keys|
        invariant entries == PieChart(ts, cs)[..j]
      {
        PieChartAt(ts, cs, j);
        assert PieChart(ts, cs)[..j + 1] == PieChart(ts, cs)[..j] + [PieChart(ts, cs)[j]];
        entries := entries + [PieEntry(keys[j], grouped[keys[j]])];
        j := j + 1;
      }
      PieChartAt(ts, cs, 0);
      assert entries == PieChart(ts, cs);
      PieConservesTotal(ts, cs);
      PieNamesDistinct(ts, cs);
    }
  }

  /** The `forEach` of `getPieChartData`: one pass over the transactions fills a label-to-total
      dictionary and records its keys in insertion order. */
  method GroupByName(ts: seq<Transaction>, cs: seq<Customer>) returns (grouped: map<string, int>, keys: seq<string>)
    ensures grouped == GroupTotals(ts, cs)
    ensures keys == FirstSeen(ts, cs)
  {
    grouped, keys := map[], [];
    var i := 0;
    while i < |ts|
      invariant 0 <= i <= |ts|
      invariant grouped == GroupTotals(ts[..i], cs)
      invariant keys == FirstSeen(ts[..i], cs)
    {
      var t := ts[i];
      var customerName := PieLabel(t, cs);
      ScanStep(ts, cs, i);
      // A stored total of 0 is falsy and is overwritten, which equals adding to it.
      if customerName in grouped && grouped[customerName] != 0 {
        grouped := grouped[customerName := grouped[customerName] + t.amount];
      } else {
        if customerName !in grouped {
          keys := keys + [customerName];
        }
        grouped := grouped[customerName := t.amount];
      }
      i := i + 1;
    }
    assert ts[..i] == ts;
  }
}
