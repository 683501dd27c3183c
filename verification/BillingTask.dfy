/**
  The aggregation task as it runs: it takes one chunk of pending transactions, sorts them, walks over the groups with
  a cache of the invoices it has touched, and asks to be run again while transactions are left.
 */
module BillingTask {
  import opened Prelude
  import opened Billing

  // ------------------------------------------------------------------ sorting and grouping

  predicate GroupLess(a: Transaction, b: Transaction) {
    if a.admin != b.admin then a.admin < b.admin
    else if a.instance != b.instance then a.instance < b.instance
    else if a.month != b.month then a.month < b.month
    else a.source < b.source
  }

  function Insert(ts: seq<Transaction>, t: Transaction): seq<Transaction> {
    if ts == [] || GroupLess(t, ts[0]) then [t] + ts else [ts[0]] + Insert(ts[1..], t)
  }

  function SortByGroup(ts: seq<Transaction>): seq<Transaction> {
    if ts == [] then [] else Insert(SortByGroup(ts[1..]), ts[0])
  }

  predicate Ordered(ts: seq<Transaction>) {
    forall i, j :: 0 <= i < j < |ts| ==> !GroupLess(ts[j], ts[i])
  }

  lemma {:induction false} InsertAdds(ts: seq<Transaction>, t: Transaction)
    ensures multiset(Insert(ts, t)) == multiset(ts) + multiset{t}
  {
    if ts != [] {
      assert ts == [ts[0]] + ts[1..];
      InsertAdds(ts[1..], t);
    }
  }

  lemma {:induction false} InsertOrders(ts: seq<Transaction>, t: Transaction)
    requires Ordered(ts)
    ensures Ordered(Insert(ts, t))
    ensures forall x :: x in Insert(ts, t) ==> x in ts || x == t
  {
    if ts != [] && !GroupLess(t, ts[0]) {
      InsertOrders(ts[1..], t);
      var rest := Insert(ts[1..], t);
      forall i | 0 <= i < |rest| ensures !GroupLess(rest[i], ts[0]) {
        assert rest[i] in ts[1..] || rest[i] == t;
      }
    }
  }

  lemma {:induction false} SortByGroupSorts(ts: seq<Transaction>)
    ensures Ordered(SortByGroup(ts)) && multiset(SortByGroup(ts)) == multiset(ts)
  {
    if ts != [] {
      assert ts == [ts[0]] + ts[1..];
      SortByGroupSorts(ts[1..]);
      InsertOrders(SortByGroup(ts[1..]), ts[0]);
      InsertAdds(SortByGroup(ts[1..]), ts[0]);
    }
  }

  lemma SortedChunk(ts: seq<Transaction>, size: nat)
    requires size <= |ts|
    ensures |SortByGroup(ts[..size]) + ts[size..]| == |ts|
    ensures multiset(SortByGroup(ts[..size]) + ts[size..]) == multiset(ts)
  {
    SortByGroupSorts(ts[..size]);
    assert ts == ts[..size] + ts[size..];
    assert |multiset(SortByGroup(ts[..size]))| == |multiset(ts[..size])|;
  }

  /** How many transactions at the front share the group of the first. */
  method GroupLength(ts: seq<Transaction>) returns (n: nat)
    requires ts != []
    ensures 0 < n <= |ts| && IsGroup(ts[..n])
    ensures n < |ts| ==> !SameGroup(ts[0], ts[n])
  {
    n := 1;
    while n < |ts| && SameGroup(ts[0], ts[n])
      invariant 0 < n <= |ts| && forall i :: 0 <= i < n ==> SameGroup(ts[0], ts[i])
    {
      n := n + 1;
    }
  }

  /** Sorting puts every group in one piece: what follows the first group has nothing of it. */
  lemma GroupsAreWhole(ts: seq<Transaction>, n: nat, i: nat)
    requires Ordered(ts) && 0 < n <= i < |ts| && !SameGroup(ts[0], ts[n])
    ensures !SameGroup(ts[0], ts[i])
  {
    assert !GroupLess(ts[n], ts[0]);
    if n < i {
      assert !GroupLess(ts[i], ts[n]);
    }
  }

  // ------------------------------------------------------------------ the cache of invoices

  type Cache = map<(Id, Id), nat>

  ghost predicate CacheOk(tariff: Tariff, invoices: seq<Invoice>, cache: Cache) {
    forall k :: k in cache ==> Find(invoices, k.0, k.1, StatusFor(tariff, k.0)) == Some(cache[k])
  }

  lemma {:induction false} FindCharged(invoices: seq<Invoice>, number: nat, amount: int, admin: Id, month: Id, status: Status)
    requires number < |invoices|
    ensures Find(Charge(invoices, number, amount), admin, month, status) == Find(invoices, admin, month, status)
  {
    var last := |invoices| - 1;
    var charged := Charge(invoices, number, amount);
    if number < last {
      assert charged[..last] == Charge(invoices[..last], number, amount);
      FindCharged(invoices[..last], number, amount, admin, month, status);
    } else {
      assert charged[..last] == invoices[..last];
    }
  }

  lemma FindAdded(invoices: seq<Invoice>, invoice: Invoice, admin: Id, month: Id, status: Status)
    ensures Find(invoices, admin, month, status).Some? ==>
              Find(invoices + [invoice], admin, month, status) == Find(invoices, admin, month, status)
    ensures (Find(invoices, admin, month, status).None? && invoice.admin == admin && invoice.month == month
             && invoice.status == status) ==> Find(invoices + [invoice], admin, month, status) == Some(|invoices|)
  {
    assert (invoices + [invoice])[..|invoices|] == invoices;
  }

  lemma ExecuteSnoc(tariff: Tariff, s: State, actions: seq<Action>, a: Action)
    requires IsRun(tariff, s, actions) && Possible(Execute(tariff, s, actions), a)
    ensures IsRun(tariff, s, actions + [a])
    ensures Execute(tariff, s, actions + [a]) == Step(tariff, Execute(tariff, s, actions), a)
    decreases |actions|
  {
    var all := actions + [a];
    if actions == [] {
      assert all[1..] == [];
    } else {
      ExecuteSnoc(tariff, Step(tariff, s, actions[0]), actions[1..], a);
      assert all[1..] == actions[1..] + [a];
    }
  }

  class AggregateTransactions {
    const tariff: Tariff
    var pending: seq<Transaction>
    var aggregated: seq<Transaction>
    var books: Books
    var invoices: Cache

    function Value(): State
      reads this
    {
      State(pending, aggregated, books)
    }

    constructor (tariff: Tariff)
      ensures Value() == INITIAL && this.tariff == tariff
    {
      this.tariff := tariff;
      pending, aggregated, books, invoices := [], [], Books([], []), map[];
    }

    /** The cached invoice, or the open one of the month, or a new one, with the amount added. */
    method CreateOrUpdateInvoice(t: Transaction, amount: int) returns (number: nat)
      requires CacheOk(tariff, books.invoices, invoices)
      modifies this`books, this`invoices
      ensures CacheOk(tariff, books.invoices, invoices)
      ensures var r := Opened(old(books.invoices), t.admin, t.month, StatusFor(tariff, t.admin));
              number == r.1 && books == Books(Charge(r.0, r.1, amount), old(books.items))
    {
      var status := StatusFor(tariff, t.admin);
      var key := (t.admin, t.month);
      ghost var before := books.invoices;
      if key !in invoices {
        var found := Find(books.invoices, t.admin, t.month, status);
        if found.Some? {
          number := found.value;
        } else {
          number := |books.invoices|;
          var invoice := Invoice(t.admin, t.month, status, 0);
          books := books.(invoices := books.invoices + [invoice]);
          FindAdded(before, invoice, t.admin, t.month, status);
          forall k | k in invoices ensures Find(books.invoices, k.0, k.1, StatusFor(tariff, k.0)) == Some(invoices[k]) {
            FindAdded(before, invoice, k.0, k.1, StatusFor(tariff, k.0));
          }
        }
        invoices := invoices[key := number];
      }
      number := invoices[key];
      ghost var open := books.invoices;
      books := books.(invoices := Charge(books.invoices, number, amount));
      forall k | k in invoices ensures Find(books.invoices, k.0, k.1, StatusFor(tariff, k.0)) == Some(invoices[k]) {
        FindCharged(open, number, amount, k.0, k.1, StatusFor(tariff, k.0));
      }
    }

    method CreateOrUpdateItem(key: ItemKey, quantity: nat)
      modifies this`books
      ensures books == old(books).(items := Upsert(old(books.items), key, quantity))
    {
      if quantity != 0 {
        if HasKey(books.items, key) {
          books := books.(items := Bump(books.items, key, quantity));
        } else {
          books := books.(items := books.items + [Item(key, quantity)]);
        }
      }
    }

    method AggregateGroup(t: Transaction, quantity: nat)
      requires CacheOk(tariff, books.invoices, invoices)
      modifies this`books, this`invoices
      ensures CacheOk(tariff, books.invoices, invoices)
      ensures books == Book(tariff, old(books), t, quantity)
    {
      var terms := tariff.terms(t.admin, t.source);
      var current := CurrentFreeUsage(books.items, t, terms.limit);
      var free := FreeQuantity(current, quantity, terms.limit);
      var paid := quantity - free;
      var number := CreateOrUpdateInvoice(t, paid * terms.price);
      var ref := InvoiceRef(number, t.admin, t.month);
      CreateOrUpdateItem(ItemKey(ref, t.instance, t.source, 0), free);
      CreateOrUpdateItem(ItemKey(ref, t.instance, t.source, terms.price), paid);
    }

    method AggregateFirst(n: nat)
      requires n <= |pending| && IsGroup(pending[..n]) && CacheOk(tariff, books.invoices, invoices)
      modifies this
      ensures CacheOk(tariff, books.invoices, invoices)
      ensures Value() == Step(tariff, old(Value()), Aggregate(n))
    {
      AggregateGroup(pending[0], Quantity(pending[..n]));
      aggregated := aggregated + pending[..n];
      pending := pending[n..];
    }

    /** The loop over the groups of the first transactions, so many in all. */
    method AggregateGroups(count: nat) returns (ghost actions: seq<Action>)
      requires count <= |pending| && CacheOk(tariff, books.invoices, invoices)
      modifies this
      ensures IsRun(tariff, old(Value()), actions) && Value() == Execute(tariff, old(Value()), actions)
      ensures |pending| == |old(pending)| - count
    {
      ghost var before := Value();
      actions := [];
      var left: nat := count;
      while left > 0
        invariant left <= |pending| && |pending| - left == |before.pending| - count
        invariant CacheOk(tariff, books.invoices, invoices)
        invariant IsRun(tariff, before, actions) && Value() == Execute(tariff, before, actions)
        decreases left
      {
        var n := GroupLength(pending[..left]);
        assert pending[..left][..n] == pending[..n];
        ExecuteSnoc(tariff, before, actions, Aggregate(n));
        AggregateFirst(n);
        actions := actions + [Aggregate(n)];
        left := left - n;
      }
    }

    /** One task: its effect is a run of group steps that aggregates the whole chunk. */
    method Run(chunk: nat) returns (more: bool, ghost actions: seq<Action>)
      modifies this
      ensures IsRun(tariff, old(Value()), actions) && Value() == Execute(tariff, old(Value()), actions)
      ensures |pending| == (if chunk < |old(pending)| then |old(pending)| - chunk else 0)
      ensures more == (chunk < |old(pending)|)
    {
      invoices := map[];
      var total := |pending|;
      if total == 0 {
        return false, [];
      }
      var size := if chunk < total then chunk else total;
      ghost var before := Value();
      var sorted := SortByGroup(pending[..size]) + pending[size..];
      SortedChunk(pending, size);
      pending := sorted;
      ghost var rest := AggregateGroups(size);
      actions := [Reorder(sorted)] + rest;
      assert actions[1..] == rest;
      more := chunk < total;
    }

    /** Tasks that schedule one another until nothing is left, which any positive chunk size ensures. */
    method Drain(chunk: nat) returns (ghost actions: seq<Action>)
      requires chunk > 0
      modifies this
      ensures pending == [] && IsRun(tariff, old(Value()), actions)
      ensures Value() == Execute(tariff, old(Value()), actions)
    {
      ghost var before := Value();
      actions := [];
      var more := true;
      while more
        invariant IsRun(tariff, before, actions) && Value() == Execute(tariff, before, actions)
        invariant !more ==> pending == []
        decreases more, |pending|
      {
        ghost var step;
        more, step := Run(chunk);
        ExecuteConcat(tariff, before, actions, step);
        actions := actions + step;
      }
    }
  }

  lemma {:induction false} ExecuteConcat(tariff: Tariff, s: State, first: seq<Action>, second: seq<Action>)
    requires IsRun(tariff, s, first) && IsRun(tariff, Execute(tariff, s, first), second)
    ensures IsRun(tariff, s, first + second)
    ensures Execute(tariff, s, first + second) == Execute(tariff, Execute(tariff, s, first), second)
    decreases |first|
  {
    var all := first + second;
    if first == [] {
      assert all == second;
    } else {
      ExecuteConcat(tariff, Step(tariff, s, first[0]), first[1..], second);
      assert all[1..] == first[1..] + second;
    }
  }
}
