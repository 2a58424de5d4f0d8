/**
 The dashboard's two record kinds and the join between them: a transaction
 names its owner by `customer_id`, which may match no customer at all.
 */
module Records {
  import opened Text

  datatype Option<T> = None | Some(value: T)

  datatype Customer = Customer(id: int, name: string)

  datatype Transaction = Transaction(id: int, customerId: int, date: string, amount: int)

  /** `customers.find((c) => c.id === id)`: the first customer with that id, or nothing. */
  function FindCustomer(customers: seq<Customer>, id: int): (r: Option<Customer>)
    ensures r.None? <==> forall i :: 0 <= i < |customers| ==> customers[i].id != id
    ensures r.Some? ==>
      exists i :: 0 <= i < |customers| && customers[i] == r.value && r.value.id == id &&
        forall j :: 0 <= j < i ==> customers[j].id != id
  {
    if customers == [] then None
    else if customers[0].id == id then Some(customers[0])
    else
      FindCustomer(customers[1..], id)
  }

  /** The owner's name, lower-cased, as the filter sees it; "" for an unresolved owner. */
  function FilterLabel(t: Transaction, customers: seq<Customer>): (r: string)
    ensures forall i :: 0 <= i < |r| ==> !IsUpperAscii(r[i])
  {
    match FindCustomer(customers, t.customerId)
    case Some(c) => ToLower(c.name)
    case None => ""
  }

  /** The owner's name as the pie chart and the table show it; "Unknown" for an unresolved owner. */
  function PieLabel(t: Transaction, customers: seq<Customer>): (r: string)
    ensures r == "Unknown" ||
      exists i :: 0 <= i < |customers| && customers[i].id == t.customerId && customers[i].name == r
  {
    match FindCustomer(customers, t.customerId)
    case Some(c) => c.name
    case None => "Unknown"
  }

  /** The two labels of a transaction: the same name up to case when the owner resolves,
      "" against "Unknown" when it does not. */
  lemma LabelsOfTransaction(t: Transaction, customers: seq<Customer>)
    ensures (exists i :: 0 <= i < |customers| && customers[i].id == t.customerId) ==>
      FilterLabel(t, customers) == ToLower(PieLabel(t, customers))
    ensures (forall i :: 0 <= i < |customers| ==> customers[i].id != t.customerId) ==>
      FilterLabel(t, customers) == "" && PieLabel(t, customers) == "Unknown"
  {
  }

  /** Customers listed after the first match with the same id are never seen by the join. */
  lemma {:induction false} LaterDuplicateIgnored(customers: seq<Customer>, c: Customer, id: int)
    requires c.id == id
    ensures FindCustomer(customers + [c], id) ==
      match FindCustomer(customers, id) case Some(d) => Some(d) case None => Some(c)
  {
    if customers != [] {
      assert (customers + [c])[1..] == customers[1..] + [c];
      LaterDuplicateIgnored(customers[1..], c, id);
    }
  }

  /** Two directories listing the same ids in the same order, with names that differ only in
      ASCII case. */
  ghost predicate SameUpToNameCase(cs: seq<Customer>, cs': seq<Customer>) {
    |cs| == |cs'| &&
    forall i :: 0 <= i < |cs| ==> cs[i].id == cs'[i].id && EqualUpToCase(cs[i].name, cs'[i].name)
  }

  /** The search label does not depend on how the directory capitalises a name. */
  lemma {:induction false} FilterLabelIgnoresNameCase(t: Transaction, cs: seq<Customer>, cs': seq<Customer>)
    requires SameUpToNameCase(cs, cs')
    ensures FilterLabel(t, cs) == FilterLabel(t, cs')
    decreases |cs|
  {
    if cs != [] {
      if cs[0].id == t.customerId {
        ToLowerEqualIffEqualUpToCase(cs[0].name, cs'[0].name);
      } else {
        assert SameUpToNameCase(cs[1..], cs'[1..]);
        FilterLabelIgnoresNameCase(t, cs[1..], cs'[1..]);
      }
    }
  }
}
