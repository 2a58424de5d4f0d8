/**
 Worked examples: one customer "Alice" (id 1) and two transactions, one of
 hers for 50 and one for 30 whose owner id 99 matches nobody.
 */
module Scenarios {
  import opened Text
  import opened Records
  import opened Filtering
  import opened Grouping
  import opened HomeComponent

  const Customers: seq<Customer> := [Customer(1, "Alice")]
  const Hers: Transaction := Transaction(10, 1, "2022-01-01", 50)
  const Orphan: Transaction := Transaction(11, 99, "2022-01-02", 30)
  const Transactions: seq<Transaction> := [Hers, Orphan]

  lemma Labels()
    ensures FilterLabel(Hers, Customers) == "alice" && PieLabel(Hers, Customers) == "Alice"
    ensures FilterLabel(Orphan, Customers) == "" && PieLabel(Orphan, Customers) == "Unknown"
    ensures DecimalString(50) == "50" && DecimalString(30) == "30"
  {
  }

  /** No terms: both transactions are visible; Alice has 50, "Unknown" has 30. */
  lemma NoTerms()
    ensures FilterTransactions(Transactions, Customers, "", "") == Transactions
    ensures PieChart(FilterTransactions(Transactions, Customers, "", ""), Customers) ==
      [PieEntry("Alice", 50), PieEntry("Unknown", 30)]
  {
    FilterWithEmptyTerms(Transactions, Customers);
    Labels();
    ChartOfHers();
    assert Transactions[..1] == [Hers];
    assert "Unknown"[0] != "Alice"[0];
    var keys := FirstSeen(Transactions, Customers);
    var totals := GroupTotals(Transactions, Customers);
    assert keys == ["Alice", "Unknown"];
    assert totals["Alice"] == 50 && totals["Unknown"] == 30;
    PieChartAt(Transactions, Customers, 0);
    PieChartAt(Transactions, Customers, 1);
  }

  lemma ChartOfHers()
    ensures FirstSeen([Hers], Customers) == ["Alice"]
    ensures GroupTotals([Hers], Customers) == map["Alice" := 50]
    ensures PieChart([Hers], Customers) == [PieEntry("Alice", 50)]
  {
  }

  lemma ChartOfOrphan()
    ensures PieChart([Orphan], Customers) == [PieEntry("Unknown", 30)]
  {
    Labels();
    assert [Orphan][..0] == [];
    PieChartAt([Orphan], Customers, 0);
  }

  /** Name term "ali": only Alice's transaction. */
  lemma NameTerm()
    ensures FilterTransactions(Transactions, Customers, "ali", "") == [Hers]
    ensures PieChart(FilterTransactions(Transactions, Customers, "ali", ""), Customers) == [PieEntry("Alice", 50)]
  {
    Labels();
    assert StartsWith("alice", "ali");
    assert !Includes("", "ali");
    assert Transactions[1..] == [Orphan];
    ChartOfHers();
  }

  /** Amount term "3": only the transaction of 30, as text "30" contains "3". */
  lemma AmountTerm()
    ensures FilterTransactions(Transactions, Customers, "", "3") == [Orphan]
    ensures PieChart(FilterTransactions(Transactions, Customers, "", "3"), Customers) == [PieEntry("Unknown", 30)]
  {
    Labels();
    assert StartsWith("30", "3");
    assert !StartsWith("50", "3") && !StartsWith("0", "3") && !StartsWith("", "3");
    assert "50"[1..] == "0" && "0"[1..] == "";
    assert Transactions[1..] == [Orphan];
    ChartOfOrphan();
  }

  /** Name term "ali" with amount term "9": nothing is visible and the chart is empty. */
  lemma NoMatch()
    ensures FilterTransactions(Transactions, Customers, "ali", "9") == []
    ensures PieChart(FilterTransactions(Transactions, Customers, "ali", "9"), Customers) == []
  {
    Labels();
    assert !StartsWith("50", "9") && !StartsWith("0", "9") && !StartsWith("", "9");
    assert "50"[1..] == "0" && "0"[1..] == "";
    assert !Includes("", "ali");
    assert Transactions[1..] == [Orphan];
  }

  /** A name typed before the data arrives is not applied by Load: the name term "bob" hides
      both transactions, yet Load shows both. */
  lemma PendingNameTermHidesAll()
    ensures FilterTransactions(Transactions, Customers, "bob", "") == []
    ensures Transactions != []
  {
    Labels();
    assert "alice"[..3][0] != "bob"[0] && "lice"[..3][0] != "bob"[0] && "ice"[..3][0] != "bob"[0];
    assert "alice"[1..] == "lice" && "lice"[1..] == "ice" && "ice"[1..] == "ce";
    assert !Includes("", "bob");
    assert Transactions[1..] == [Orphan];
  }

  /** A session: typing "Bob" before the fetch resolves, then loading, leaves the table showing
      both transactions under the stored term "bob"; the refiltering load shows none. */
  method TypedBeforeLoad() returns (asWritten: seq<Transaction>, intended: seq<Transaction>)
    ensures asWritten == Transactions
    ensures intended == []
  {
    var home := new Home();
    home.OnNameChange("Bob");
    assert ToLower("Bob") == "bob";
    home.Load(Some(Dataset(Customers, Transactions)));
    asWritten := home.filteredTransactions;
    PendingNameTermHidesAll();
    assert !home.InSync();

    var fixedHome := new Home();
    fixedHome.OnNameChange("Bob");
    fixedHome.LoadAndRefilter(Some(Dataset(Customers, Transactions)));
    intended := fixedHome.filteredTransactions;
  }

  /** A session of edits: each handler keeps the other term, and clearing both terms brings every
      transaction back, since the filter always rescans the full list. */
  method EditSession() returns (shown: seq<Transaction>, pie: seq<PieEntry>)
    ensures shown == Transactions
    ensures pie == [PieEntry("Alice", 50), PieEntry("Unknown", 30)]
  {
    var home := new Home();
    home.Load(Some(Dataset(Customers, Transactions)));
    home.OnNameChange("ALI");
    assert ToLower("ALI") == "ali";
    home.OnAmountChange("9");
    assert home.nameSearch == "ali";
    NoMatch();
    assert home.filteredTransactions == [];
    home.OnNameChange("");
    home.OnAmountChange("");
    NoTerms();
    shown := home.filteredTransactions;
    pie := home.PieData();
  }
}
