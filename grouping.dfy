/**
 What `getPieChartData` computes, as functions over the visible transactions:
 per-label running totals, the labels in the order they were first met, and
 the `{name, value}` entries built from the two.
 */
module Grouping {
  import opened Records

  datatype PieEntry = PieEntry(name: string, value: int)

  /** The label-to-total dictionary after scanning ts in order: the first amount of a label
      starts its total, later amounts are added to it. */
  function GroupTotals(ts: seq<Transaction>, customers: seq<Customer>): (g: map<string, int>)
    decreases |ts|
  {
    if ts == [] then map[]
    else
      var g := GroupTotals(ts[..|ts| - 1], customers);
      var t := ts[|ts| - 1];
      var name := PieLabel(t, customers);
      g[name := (if name in g then g[name] else 0) + t.amount]
  }

  /** The dictionary's keys in insertion order: a label is appended the first time it is met. */
  function FirstSeen(ts: seq<Transaction>, customers: seq<Customer>): (keys: seq<string>)
    ensures |keys| <= |ts|
    decreases |ts|
  {
    if ts == [] then []
    else
      var keys := FirstSeen(ts[..|ts| - 1], customers);
      var name := PieLabel(ts[|ts| - 1], customers);
      if name in keys then keys else keys + [name]
  }

  /** The set of labels the transactions resolve to. */
  ghost function LabelsOf(ts: seq<Transaction>, customers: seq<Customer>): set<string> {
    set i | 0 <= i < |ts| :: PieLabel(ts[i], customers)
  }

  /** The dictionary's keys, listed or as a set, are exactly the labels met. */
  lemma {:induction false} KeysAreLabels(ts: seq<Transaction>, customers: seq<Customer>)
    ensures GroupTotals(ts, customers).Keys == LabelsOf(ts, customers)
    ensures forall l :: l in FirstSeen(ts, customers) <==> l in LabelsOf(ts, customers)
    decreases |ts|
  {
    if ts != [] {
      KeysAreLabels(ts[..|ts| - 1], customers);
      LabelsOfLast(ts, customers);
    }
  }

  /** The labels of ts are those of ts without its last transaction, plus the last one's. */
  lemma LabelsOfLast(ts: seq<Transaction>, customers: seq<Customer>)
    requires ts != []
    ensures LabelsOf(ts, customers) == LabelsOf(ts[..|ts| - 1], customers) + {PieLabel(ts[|ts| - 1], customers)}
  {
    var pre := ts[..|ts| - 1];
    assert forall i :: 0 <= i < |pre| ==> pre[i] == ts[i];
  }

  /** One step of the scan: the dictionary and its key list after the transaction at position i. */
  lemma ScanStep(ts: seq<Transaction>, customers: seq<Customer>, i: int)
    requires 0 <= i < |ts|
    ensures var g := GroupTotals(ts[..i], customers);
      var name := PieLabel(ts[i], customers);
      && GroupTotals(ts[..i + 1], customers) == g[name := (if name in g then g[name] else 0) + ts[i].amount]
      && FirstSeen(ts[..i + 1], customers) ==
           if name in g then FirstSeen(ts[..i], customers) else FirstSeen(ts[..i], customers) + [name]
  {
    var pre := ts[..i];
    assert ts[..i + 1][..i] == pre;
    KeyIffListed(pre, customers, PieLabel(ts[i], customers));
  }

  /** A label is a key of the dictionary exactly when it is in the key list. */
  lemma {:induction false} KeyIffListed(ts: seq<Transaction>, customers: seq<Customer>, name: string)
    ensures name in GroupTotals(ts, customers) <==> name in FirstSeen(ts, customers)
    decreases |ts|
  {
    if ts != [] {
      KeyIffListed(ts[..|ts| - 1], customers, name);
    }
  }

  /** The chart entries, one per key, in key order. */
  function PieChart(ts: seq<Transaction>, customers: seq<Customer>): (r: seq<PieEntry>)
    ensures |r| <= |ts|
  {
    var keys := FirstSeen(ts, customers);
    var g := GroupTotals(ts, customers);
    KeysAreLabels(ts, customers);
    seq(|keys|, i requires 0 <= i < |keys| => PieEntry(keys[i], g[keys[i]]))
  }

  /** The chart has one entry per key, the i-th carrying the i-th key and its total. */
  lemma PieChartAt(ts: seq<Transaction>, customers: seq<Customer>, i: int)
    ensures |PieChart(ts, customers)| == |FirstSeen(ts, customers)|
    ensures 0 <= i < |FirstSeen(ts, customers)| ==>
      FirstSeen(ts, customers)[i] in GroupTotals(ts, customers) &&
      PieChart(ts, customers)[i] ==
        PieEntry(FirstSeen(ts, customers)[i], GroupTotals(ts, customers)[FirstSeen(ts, customers)[i]])
  {
  }

  // ---------------------------------------------------------------------------
  // Reference sums

  /** Sum of the amounts of the transactions whose label is `name`. */
  function SumFor(ts: seq<Transaction>, customers: seq<Customer>, name: string): (sum: int)
    decreases |ts|
  {
    if ts == [] then 0
    else SumFor(ts[..|ts| - 1], customers, name)
         + (if PieLabel(ts[|ts| - 1], customers) == name then ts[|ts| - 1].amount else 0)
  }

  /** Sum of all amounts. */
  function Total(ts: seq<Transaction>): (sum: int)
    decreases |ts|
  {
    if ts == [] then 0 else Total(ts[..|ts| - 1]) + ts[|ts| - 1].amount
  }

  /** Sum of the entries' values. */
  function SumValues(es: seq<PieEntry>): (sum: int)
    decreases |es|
  {
    if es == [] then 0 else SumValues(es[..|es| - 1]) + es[|es| - 1].value
  }

  ghost predicate Distinct(keys: seq<string>) {
    forall i, j :: 0 <= i < j < |keys| ==> keys[i] != keys[j]
  }

  // ---------------------------------------------------------------------------
  // Properties of the chart

  lemma {:induction false} FirstSeenDistinct(ts: seq<Transaction>, customers: seq<Customer>)
    ensures Distinct(FirstSeen(ts, customers))
    decreases |ts|
  {
    if ts != [] {
      FirstSeenDistinct(ts[..|ts| - 1], customers);
    }
  }

  /** Each total in the dictionary is the sum of the amounts carrying its label. */
  lemma {:induction false} TotalsAreSums(ts: seq<Transaction>, customers: seq<Customer>, name: string)
    ensures name in GroupTotals(ts, customers) ==> GroupTotals(ts, customers)[name] == SumFor(ts, customers, name)
    ensures name !in GroupTotals(ts, customers) ==> SumFor(ts, customers, name) == 0
    decreases |ts|
  {
    if ts != [] {
      TotalsAreSums(ts[..|ts| - 1], customers, name);
    }
  }

  /** No label appears twice in the chart. */
  lemma PieNamesDistinct(ts: seq<Transaction>, customers: seq<Customer>)
    ensures forall i, j :: 0 <= i < j < |PieChart(ts, customers)| ==>
      PieChart(ts, customers)[i].name != PieChart(ts, customers)[j].name
  {
    FirstSeenDistinct(ts, customers);
  }

  /** The chart's names are exactly the labels of the transactions. */
  lemma PieNamesAreLabels(ts: seq<Transaction>, customers: seq<Customer>, name: string)
    ensures (exists i :: 0 <= i < |PieChart(ts, customers)| && PieChart(ts, customers)[i].name == name)
        <==> (exists p :: 0 <= p < |ts| && PieLabel(ts[p], customers) == name)
  {
    KeysAreLabels(ts, customers);
    var pie := PieChart(ts, customers);
    var keys := FirstSeen(ts, customers);
    if exists p :: 0 <= p < |ts| && PieLabel(ts[p], customers) == name {
      assert name in LabelsOf(ts, customers);
      var i :| 0 <= i < |keys| && keys[i] == name;
      assert pie[i].name == name;
    }
    if exists i :: 0 <= i < |pie| && pie[i].name == name {
      var i :| 0 <= i < |pie| && pie[i].name == name;
      assert keys[i] == name;
      assert name in LabelsOf(ts, customers);
    }
  }

  /** Each entry's value is the sum of the amounts of the transactions carrying its name. */
  lemma PieValuesAreSums(ts: seq<Transaction>, customers: seq<Customer>)
    ensures forall i :: 0 <= i < |PieChart(ts, customers)| ==>
      PieChart(ts, customers)[i].value == SumFor(ts, customers, PieChart(ts, customers)[i].name)
  {
    var pie := PieChart(ts, customers);
    KeysAreLabels(ts, customers);
    forall i | 0 <= i < |pie| ensures pie[i].value == SumFor(ts, customers, pie[i].name) {
      assert pie[i].name in FirstSeen(ts, customers);
      TotalsAreSums(ts, customers, pie[i].name);
    }
  }

  /** The chart of ts is the chart of ts without its last transaction, with that transaction's
      amount either added to the entry of its label or appended as a new entry. */
  lemma PieChartStep(ts: seq<Transaction>, customers: seq<Customer>)
    requires ts != []
    ensures var pre := ts[..|ts| - 1];
      var t := ts[|ts| - 1];
      var name := PieLabel(t, customers);
      var before := PieChart(pre, customers);
      var after := PieChart(ts, customers);
      if name in FirstSeen(pre, customers) then
        |after| == |before| &&
        forall i :: 0 <= i < |before| ==>
          after[i] == if before[i].name == name then PieEntry(name, before[i].value + t.amount) else before[i]
      else
        after == before + [PieEntry(name, t.amount)]
  {
    var pre := ts[..|ts| - 1];
    KeysAreLabels(pre, customers);
  }

  lemma {:induction false} SumValuesUpdate(es: seq<PieEntry>, k: int, e: PieEntry)
    requires 0 <= k < |es|
    ensures SumValues(es[k := e]) == SumValues(es) - es[k].value + e.value
    decreases |es|
  {
    var last := |es| - 1;
    if k < last {
      SumValuesUpdate(es[..last], k, e);
      assert es[k := e][..last] == es[..last][k := e];
    } else {
      assert es[k := e][..last] == es[..last];
    }
  }

  /** Scanning one more transaction adds its amount to the sum of the entries' values. */
  lemma PieStepSum(ts: seq<Transaction>, customers: seq<Customer>)
    requires ts != []
    ensures SumValues(PieChart(ts, customers)) == SumValues(PieChart(ts[..|ts| - 1], customers)) + ts[|ts| - 1].amount
  {
    var pre := ts[..|ts| - 1];
    var t := ts[|ts| - 1];
    var name := PieLabel(t, customers);
    var before := PieChart(pre, customers);
    var after := PieChart(ts, customers);
    PieChartStep(ts, customers);
    if name in FirstSeen(pre, customers) {
      var k :| 0 <= k < |FirstSeen(pre, customers)| && FirstSeen(pre, customers)[k] == name;
      PieChartAt(pre, customers, k);
      FirstSeenDistinct(pre, customers);
      var e := PieEntry(name, before[k].value + t.amount);
      assert after == before[k := e];
      SumValuesUpdate(before, k, e);
    } else {
      assert after[..|after| - 1] == before;
    }
  }

  /** Conservation: the entries' values add up to the total amount of the transactions. */
  lemma {:induction false} PieConservesTotal(ts: seq<Transaction>, customers: seq<Customer>)
    ensures SumValues(PieChart(ts, customers)) == Total(ts)
    decreases |ts|
  {
    if ts != [] {
      PieConservesTotal(ts[..|ts| - 1], customers);
      PieStepSum(ts, customers);
    }
  }

  /** The transaction at position p is the first to carry `name`. */
  ghost predicate FirstAppearsAt(ts: seq<Transaction>, customers: seq<Customer>, name: string, p: int) {
    0 <= p < |ts| && PieLabel(ts[p], customers) == name &&
    forall q :: 0 <= q < p ==> PieLabel(ts[q], customers) != name
  }

  /** A first appearance in ts of a label already met before the last transaction is a first
      appearance in that prefix too. */
  lemma FirstAppearanceInPrefix(ts: seq<Transaction>, customers: seq<Customer>, name: string, p: int)
    requires ts != [] && FirstAppearsAt(ts, customers, name, p)
    requires name in LabelsOf(ts[..|ts| - 1], customers)
    ensures FirstAppearsAt(ts[..|ts| - 1], customers, name, p)
  {
    var pre := ts[..|ts| - 1];
    var p0 :| 0 <= p0 < |pre| && PieLabel(pre[p0], customers) == name;
    assert ts[p0] == pre[p0];
  }

  /** A label not met before the last transaction first appears at the last transaction. */
  lemma FirstAppearanceOfNewLabel(ts: seq<Transaction>, customers: seq<Customer>, name: string, q: int)
    requires ts != [] && FirstAppearsAt(ts, customers, name, q)
    requires name !in LabelsOf(ts[..|ts| - 1], customers)
    ensures q == |ts| - 1
  {
    var pre := ts[..|ts| - 1];
    forall r | 0 <= r < |pre| ensures PieLabel(ts[r], customers) != name {
      assert ts[r] == pre[r];
    }
  }

  /** Entries follow the order in which their labels first appear, whatever the labels spell. */
  lemma {:induction false} PieFollowsFirstAppearance(ts: seq<Transaction>, customers: seq<Customer>,
                                                     i: int, j: int, p: int, q: int)
    requires 0 <= i < j < |PieChart(ts, customers)|
    requires FirstAppearsAt(ts, customers, PieChart(ts, customers)[i].name, p)
    requires FirstAppearsAt(ts, customers, PieChart(ts, customers)[j].name, q)
    ensures p < q
    decreases |ts|
  {
    var pre := ts[..|ts| - 1];
    var keys := FirstSeen(ts, customers);
    var preKeys := FirstSeen(pre, customers);
    PieChartAt(ts, customers, i);
    PieChartAt(ts, customers, j);
    PieChartAt(pre, customers, i);
    PieChartAt(pre, customers, j);
    KeysAreLabels(pre, customers);
    assert keys[..|preKeys|] == preKeys;
    FirstAppearanceInPrefix(ts, customers, keys[i], p);
    if j < |preKeys| {
      FirstAppearanceInPrefix(ts, customers, keys[j], q);
      PieFollowsFirstAppearance(pre, customers, i, j, p, q);
    } else {
      FirstAppearanceOfNewLabel(ts, customers, keys[j], q);
    }
  }

  /** The chart is empty exactly when no transaction is visible. */
  lemma PieEmptyIffNoTransactions(ts: seq<Transaction>, customers: seq<Customer>)
    ensures PieChart(ts, customers) == [] <==> ts == []
  {
  }
}
