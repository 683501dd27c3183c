/**
  Usage billing: recorded transactions are aggregated, group by group, into invoice items that are free up to the
  limit of the admin's plan and paid beyond it. A run works on one chunk of transactions, sorted and grouped by admin,
  instance, month and source; here a run is any sequence of such group steps, with new transactions, reordering and
  the dispatch of invoices in between.
 */
module Billing {
  import opened Prelude

  type Id = nat

  datatype Transaction = Transaction(admin: Id, instance: Id, month: Id, source: Id, quantity: nat)

  /** Prices are in the smallest unit of money; a negative limit is no limit. */
  datatype Terms = Terms(price: nat, limit: int)

  /** What each admin's plan says; it does not change during the month. */
  datatype Tariff = Tariff(paidPlan: Id -> bool, terms: (Id, Id) -> Terms)

  datatype InvoiceRef = InvoiceRef(number: nat, admin: Id, month: Id)

  datatype Status = New | Fake | Dispatched

  datatype Invoice = Invoice(admin: Id, month: Id, status: Status, overage: int)

  datatype ItemKey = ItemKey(invoice: InvoiceRef, instance: Id, source: Id, price: nat)

  datatype Item = Item(key: ItemKey, quantity: nat)

  /** Invoices are numbered by their place. */
  datatype Books = Books(invoices: seq<Invoice>, items: seq<Item>)

  // ------------------------------------------------------------------ sums

  /** The quantities of the items, each counted with the weight of its key. */
  function Sum(items: seq<Item>, weight: ItemKey -> int): int {
    if items == [] then 0
    else Sum(items[..|items| - 1], weight) + weight(items[|items| - 1].key) * items[|items| - 1].quantity
  }

  function Usage(ts: seq<Transaction>, counts: Transaction -> bool): nat {
    if ts == [] then 0
    else Usage(ts[..|ts| - 1], counts) + if counts(ts[|ts| - 1]) then ts[|ts| - 1].quantity else 0
  }

  predicate For(k: ItemKey, admin: Id, month: Id, source: Id) {
    k.invoice.admin == admin && k.invoice.month == month && k.source == source
  }

  function AllOf(admin: Id, month: Id, source: Id): ItemKey -> int {
    (k: ItemKey) => if For(k, admin, month, source) then 1 else 0
  }

  function FreeOf(admin: Id, month: Id, source: Id): ItemKey -> int {
    (k: ItemKey) => if For(k, admin, month, source) && k.price == 0 then 1 else 0
  }

  function PaidOf(admin: Id, month: Id, source: Id): ItemKey -> int {
    (k: ItemKey) => if For(k, admin, month, source) && k.price > 0 then 1 else 0
  }

  function InstanceOf(admin: Id, instance: Id, month: Id, source: Id): ItemKey -> int {
    (k: ItemKey) => if For(k, admin, month, source) && k.instance == instance then 1 else 0
  }

  function ChargedTo(number: nat): ItemKey -> int {
    (k: ItemKey) => if k.invoice.number == number then k.price else 0
  }

  function UseOf(admin: Id, month: Id, source: Id): Transaction -> bool {
    (t: Transaction) => t.admin == admin && t.month == month && t.source == source
  }

  function InstanceUseOf(admin: Id, instance: Id, month: Id, source: Id): Transaction -> bool {
    (t: Transaction) => t.admin == admin && t.month == month && t.source == source && t.instance == instance
  }

  // ------------------------------------------------------------------ one group

  function CurrentFreeUsage(items: seq<Item>, t: Transaction, limit: int): int {
    if limit > 0 then Sum(items, FreeOf(t.admin, t.month, t.source)) else 0
  }

  function FreeQuantity(currentFreeUsage: int, usage: nat, limit: int): (free: nat)
    ensures free <= usage
  {
    if limit >= 0 then Min(Max(limit - currentFreeUsage, 0), usage) else usage
  }

  /** The first invoice of this admin and month with this status. */
  function Find(invoices: seq<Invoice>, admin: Id, month: Id, status: Status): (r: Option<nat>)
    ensures r.Some? ==> r.value < |invoices|
    ensures r.Some? ==> var i := invoices[r.value]; i.admin == admin && i.month == month && i.status == status
    ensures r.None? ==> forall j :: 0 <= j < |invoices| ==>
                          !(invoices[j].admin == admin && invoices[j].month == month && invoices[j].status == status)
  {
    if invoices == [] then None
    else
      var last := |invoices| - 1;
      var r := Find(invoices[..last], admin, month, status);
      if r.Some? then r
      else if invoices[last].admin == admin && invoices[last].month == month && invoices[last].status == status
      then Some(last)
      else None
  }

  function Opened(invoices: seq<Invoice>, admin: Id, month: Id, status: Status): (r: (seq<Invoice>, nat))
    ensures r.1 < |r.0|
    ensures r.0[r.1].admin == admin && r.0[r.1].month == month && r.0[r.1].status == status
  {
    var found := Find(invoices, admin, month, status);
    if found.Some? then (invoices, found.value)
    else (invoices + [Invoice(admin, month, status, 0)], |invoices|)
  }

  function Charge(invoices: seq<Invoice>, number: nat, amount: int): seq<Invoice>
    requires number < |invoices|
  {
    invoices[number := invoices[number].(overage := invoices[number].overage + amount)]
  }

  /** Adds to every item with this key. */
  function Bump(items: seq<Item>, key: ItemKey, quantity: nat): seq<Item> {
    if items == [] then []
    else
      var last := items[|items| - 1];
      Bump(items[..|items| - 1], key, quantity)
      + [if last.key == key then last.(quantity := last.quantity + quantity) else last]
  }

  predicate HasKey(items: seq<Item>, key: ItemKey) {
    exists i :: 0 <= i < |items| && items[i].key == key
  }

  /** Nothing is written for no quantity; otherwise the item is updated, or created if no row was updated. */
  function Upsert(items: seq<Item>, key: ItemKey, quantity: nat): seq<Item> {
    if quantity == 0 then items
    else if HasKey(items, key) then Bump(items, key, quantity)
    else items + [Item(key, quantity)]
  }

  function StatusFor(tariff: Tariff, admin: Id): Status {
    if tariff.paidPlan(admin) then New else Fake
  }

  /** Books a quantity used by the admin, instance, month and source of t. */
  function Book(tariff: Tariff, books: Books, t: Transaction, quantity: nat): Books {
    var terms := tariff.terms(t.admin, t.source);
    var free := FreeQuantity(CurrentFreeUsage(books.items, t, terms.limit), quantity, terms.limit);
    var paid := quantity - free;
    var (invoices, number) := Opened(books.invoices, t.admin, t.month, StatusFor(tariff, t.admin));
    var ref := InvoiceRef(number, t.admin, t.month);
    Books(Charge(invoices, number, paid * terms.price),
          Upsert(Upsert(books.items, ItemKey(ref, t.instance, t.source, 0), free),
                 ItemKey(ref, t.instance, t.source, terms.price), paid))
  }

  // ------------------------------------------------------------------ runs

  datatype State = State(pending: seq<Transaction>, aggregated: seq<Transaction>, books: Books)

  datatype Action =
    | Record(t: Transaction)
    /** Rows come back from the database, or out of a sort, in some other order. */
    | Reorder(ts: seq<Transaction>)
    /** The first n pending transactions, which form one group, are aggregated. */
    | Aggregate(n: nat)
    | Dispatch(number: nat)

  const INITIAL: State := State([], [], Books([], []))

  predicate SameGroup(a: Transaction, b: Transaction) {
    a.admin == b.admin && a.instance == b.instance && a.month == b.month && a.source == b.source
  }

  predicate IsGroup(ts: seq<Transaction>) {
    ts != [] && forall i :: 0 <= i < |ts| ==> SameGroup(ts[0], ts[i])
  }

  ghost predicate Possible(s: State, a: Action) {
    match a
    case Record(_) => true
    case Reorder(ts) => multiset(ts) == multiset(s.pending)
    case Aggregate(n) => n <= |s.pending| && IsGroup(s.pending[..n])
    case Dispatch(number) => number < |s.books.invoices| && s.books.invoices[number].status == New
  }

  function Everything(): Transaction -> bool {
    (t: Transaction) => true
  }

  function Quantity(ts: seq<Transaction>): nat {
    Usage(ts, Everything())
  }

  function Step(tariff: Tariff, s: State, a: Action): State {
    match a
    case Record(t) => s.(pending := s.pending + [t])
    case Reorder(ts) => s.(pending := ts)
    case Aggregate(n) =>
      if n == 0 || n > |s.pending| then s
      else
        State(s.pending[n..], s.aggregated + s.pending[..n],
              Book(tariff, s.books, s.pending[0], Quantity(s.pending[..n])))
    case Dispatch(number) =>
      if number >= |s.books.invoices| then s
      else s.(books := s.books.(invoices := s.books.invoices[number := s.books.invoices[number].(status := Dispatched)]))
  }

  ghost predicate IsRun(tariff: Tariff, s: State, actions: seq<Action>)
    decreases |actions|
  {
    actions == [] || (Possible(s, actions[0]) && IsRun(tariff, Step(tariff, s, actions[0]), actions[1..]))
  }

  function Execute(tariff: Tariff, s: State, actions: seq<Action>): State
    decreases |actions|
  {
    if actions == [] then s else Execute(tariff, Step(tariff, s, actions[0]), actions[1..])
  }

  // ------------------------------------------------------------------ how booking changes a sum

  predicate Unique(items: seq<Item>) {
    forall i, j :: 0 <= i < j < |items| ==> items[i].key != items[j].key
  }

  lemma {:induction false} BumpElsewhere(items: seq<Item>, key: ItemKey, quantity: nat)
    requires !HasKey(items, key)
    ensures Bump(items, key, quantity) == items
  {
    if items != [] {
      var front := items[..|items| - 1];
      assert forall i :: 0 <= i < |front| ==> front[i] == items[i];
      BumpElsewhere(front, key, quantity);
      assert items[|items| - 1].key != key;
    }
  }

  lemma {:induction false} BumpKeys(items: seq<Item>, key: ItemKey, quantity: nat)
    ensures |Bump(items, key, quantity)| == |items|
    ensures forall i :: 0 <= i < |items| ==> Bump(items, key, quantity)[i].key == items[i].key
  {
    if items != [] { BumpKeys(items[..|items| - 1], key, quantity); }
  }

  lemma SumSnoc(items: seq<Item>, item: Item, weight: ItemKey -> int)
    ensures Sum(items + [item], weight) == Sum(items, weight) + weight(item.key) * item.quantity
  {
    PartsOfConcat(items, [item]);
  }

  lemma Distribute(w: int, a: int, b: int)
    ensures w * (a + b) == w * a + w * b
  {
  }

  lemma BumpSnoc(front: seq<Item>, last: Item, key: ItemKey, quantity: nat)
    ensures Bump(front + [last], key, quantity)
            == Bump(front, key, quantity) + [if last.key == key then last.(quantity := last.quantity + quantity) else last]
  {
    PartsOfConcat(front, [last]);
  }

  lemma SumBumpHere(front: seq<Item>, last: Item, quantity: nat, weight: ItemKey -> int)
    requires !HasKey(front, last.key)
    ensures Sum(Bump(front + [last], last.key, quantity), weight) == Sum(front + [last], weight) + weight(last.key) * quantity
  {
    BumpSnoc(front, last, last.key, quantity);
    BumpElsewhere(front, last.key, quantity);
    SumSnoc(front, last, weight);
    SumSnoc(front, last.(quantity := last.quantity + quantity), weight);
    Distribute(weight(last.key), last.quantity, quantity);
  }

  lemma {:induction false} SumBump(items: seq<Item>, key: ItemKey, quantity: nat, weight: ItemKey -> int)
    requires Unique(items) && HasKey(items, key)
    ensures Sum(Bump(items, key, quantity), weight) == Sum(items, weight) + weight(key) * quantity
  {
    var front, last := items[..|items| - 1], items[|items| - 1];
    assert items == front + [last];
    if last.key == key {
      assert !HasKey(front, key);
      SumBumpHere(front, last, quantity, weight);
    } else {
      var i :| 0 <= i < |items| && items[i].key == key;
      assert front[i].key == key;
      SumBump(front, key, quantity, weight);
      BumpSnoc(front, last, key, quantity);
      SumSnoc(Bump(front, key, quantity), last, weight);
      SumSnoc(front, last, weight);
    }
  }

  lemma UpsertEffect(items: seq<Item>, key: ItemKey, quantity: nat, weight: ItemKey -> int)
    requires Unique(items)
    ensures Unique(Upsert(items, key, quantity))
    ensures Sum(Upsert(items, key, quantity), weight) == Sum(items, weight) + weight(key) * quantity
  {
    if quantity > 0 {
      if HasKey(items, key) {
        SumBump(items, key, quantity, weight);
        BumpKeys(items, key, quantity);
      } else {
        assert (items + [Item(key, quantity)])[..|items|] == items;
      }
    }
  }

  /** The number of the invoice that a group is booked on. */
  function Number(tariff: Tariff, books: Books, t: Transaction): nat {
    Opened(books.invoices, t.admin, t.month, StatusFor(tariff, t.admin)).1
  }

  function FreeShare(tariff: Tariff, books: Books, t: Transaction, quantity: nat): (free: nat)
    ensures free <= quantity
  {
    var terms := tariff.terms(t.admin, t.source);
    FreeQuantity(CurrentFreeUsage(books.items, t, terms.limit), quantity, terms.limit)
  }

  function KeyFor(tariff: Tariff, books: Books, t: Transaction, price: nat): ItemKey {
    ItemKey(InvoiceRef(Number(tariff, books, t), t.admin, t.month), t.instance, t.source, price)
  }

  lemma BookEffect(tariff: Tariff, books: Books, t: Transaction, quantity: nat, weight: ItemKey -> int)
    requires Unique(books.items)
    ensures var free := FreeShare(tariff, books, t, quantity);
            var price := tariff.terms(t.admin, t.source).price;
            && Unique(Book(tariff, books, t, quantity).items)
            && Sum(Book(tariff, books, t, quantity).items, weight)
               == Sum(books.items, weight) + weight(KeyFor(tariff, books, t, 0)) * free
                  + weight(KeyFor(tariff, books, t, price)) * (quantity - free)
  {
    var free := FreeShare(tariff, books, t, quantity);
    var price := tariff.terms(t.admin, t.source).price;
    UpsertEffect(books.items, KeyFor(tariff, books, t, 0), free, weight);
    UpsertEffect(Upsert(books.items, KeyFor(tariff, books, t, 0), free),
                 KeyFor(tariff, books, t, price), quantity - free, weight);
  }

  // ------------------------------------------------------------------ sums of transactions

  lemma {:induction false} UsageConcat(a: seq<Transaction>, b: seq<Transaction>, counts: Transaction -> bool)
    ensures Usage(a + b, counts) == Usage(a, counts) + Usage(b, counts)
  {
    if b == [] {
      assert a + b == a;
    } else {
      assert (a + b)[..|a + b| - 1] == a + b[..|b| - 1];
      UsageConcat(a, b[..|b| - 1], counts);
    }
  }

  /** A group counts in full or not at all. */
  lemma {:induction false} UsageOfGroup(ts: seq<Transaction>, counts: Transaction -> bool)
    requires forall i, j :: 0 <= i < j < |ts| ==> counts(ts[i]) == counts(ts[j])
    ensures Usage(ts, counts) == if ts != [] && counts(ts[0]) then Quantity(ts) else 0
  {
    if ts != [] {
      var front := ts[..|ts| - 1];
      UsageOfGroup(front, counts);
      if front != [] {
        assert front[0] == ts[0] && counts(ts[0]) == counts(ts[|ts| - 1]);
      }
      assert Quantity(ts) == Quantity(front) + ts[|ts| - 1].quantity;
    }
  }

  lemma UsageWithout(ts: seq<Transaction>, i: nat, counts: Transaction -> bool)
    requires i < |ts|
    ensures Usage(ts, counts) == Usage(ts[..i] + ts[i + 1..], counts) + (if counts(ts[i]) then ts[i].quantity else 0)
  {
    SplitAt(ts, i);
    UsageConcat(ts[..i], [ts[i]], counts);
    UsageConcat(ts[..i] + [ts[i]], ts[i + 1..], counts);
    UsageConcat(ts[..i], ts[i + 1..], counts);
    assert [ts[i]][..0] == [];
  }

  lemma WithoutOne(ts: seq<Transaction>, i: nat)
    requires i < |ts|
    ensures multiset(ts[..i] + ts[i + 1..]) == multiset(ts) - multiset{ts[i]}
  {
    SplitAt(ts, i);
  }

  /** The order of transactions does not matter. */
  lemma {:induction false} UsageReordered(a: seq<Transaction>, b: seq<Transaction>, counts: Transaction -> bool)
    requires multiset(a) == multiset(b)
    ensures Usage(a, counts) == Usage(b, counts)
  {
    if a == [] {
      assert |multiset(b)| == 0;
    } else {
      var n, last := |a| - 1, a[|a| - 1];
      assert last in multiset(b);
      var i :| 0 <= i < |b| && b[i] == last;
      WithoutOne(a, n);
      WithoutOne(b, i);
      NothingAdded(a[..n]);
      UsageReordered(a[..n], b[..i] + b[i + 1..], counts);
      UsageWithout(b, i, counts);
    }
  }

  // ------------------------------------------------------------------ what every step keeps

  /** Of one admin, month and source: everything is booked, and free up to the limit. */
  ghost predicate UsageOk(tariff: Tariff, s: State, admin: Id, month: Id, source: Id) {
    var used := Usage(s.aggregated, UseOf(admin, month, source));
    && Sum(s.books.items, AllOf(admin, month, source)) == used
    && Sum(s.books.items, FreeOf(admin, month, source)) == FreeTotal(tariff.terms(admin, source), used)
  }

  /** What is booked without a price. When the price is nil, everything is. */
  function FreeTotal(terms: Terms, used: nat): int {
    if terms.limit < 0 || terms.price == 0 then used else Min(terms.limit, used)
  }

  ghost predicate InstanceOk(s: State, admin: Id, instance: Id, month: Id, source: Id) {
    Sum(s.books.items, InstanceOf(admin, instance, month, source))
    == Usage(s.aggregated, InstanceUseOf(admin, instance, month, source))
  }

  ghost predicate OverageOk(books: Books, number: nat) {
    Sum(books.items, ChargedTo(number)) == OverageOf(books.invoices, number)
  }

  predicate PriceOk(tariff: Tariff, item: Item) {
    item.key.price == 0 || item.key.price == tariff.terms(item.key.invoice.admin, item.key.source).price
  }

  predicate PricesOk(tariff: Tariff, items: seq<Item>) {
    forall i :: 0 <= i < |items| ==> PriceOk(tariff, items[i])
  }

  /** At most one invoice of an admin and month is open under each status, so looking it up finds one or none. */
  predicate OneOpen(invoices: seq<Invoice>) {
    forall i, j :: 0 <= i < j < |invoices| && invoices[i].status != Dispatched ==>
      !(invoices[i].admin == invoices[j].admin && invoices[i].month == invoices[j].month
        && invoices[i].status == invoices[j].status)
  }

  ghost predicate Inv(tariff: Tariff, s: State) {
    && Unique(s.books.items)
    && PricesOk(tariff, s.books.items)
    && OneOpen(s.books.invoices)
    && (forall admin, month, source :: UsageOk(tariff, s, admin, month, source))
    && (forall admin, instance, month, source :: InstanceOk(s, admin, instance, month, source))
    && (forall number :: OverageOk(s.books, number))
  }

  lemma UpsertPrices(tariff: Tariff, items: seq<Item>, key: ItemKey, quantity: nat)
    requires PricesOk(tariff, items)
    requires key.price == 0 || key.price == tariff.terms(key.invoice.admin, key.source).price
    ensures PricesOk(tariff, Upsert(items, key, quantity))
  {
    BumpKeys(items, key, quantity);
    var after := Upsert(items, key, quantity);
    forall i | 0 <= i < |after| ensures PriceOk(tariff, after[i]) {
      if i < |items| {
        assert PriceOk(tariff, items[i]);
      }
    }
  }

  lemma BookPrices(tariff: Tariff, books: Books, t: Transaction, quantity: nat)
    requires PricesOk(tariff, books.items)
    ensures PricesOk(tariff, Book(tariff, books, t, quantity).items)
  {
    var free := FreeShare(tariff, books, t, quantity);
    var price := tariff.terms(t.admin, t.source).price;
    UpsertPrices(tariff, books.items, KeyFor(tariff, books, t, 0), free);
    UpsertPrices(tariff, Upsert(books.items, KeyFor(tariff, books, t, 0), free),
                 KeyFor(tariff, books, t, price), quantity - free);
  }

  lemma BookOneOpen(tariff: Tariff, books: Books, t: Transaction, quantity: nat)
    requires OneOpen(books.invoices)
    ensures OneOpen(Book(tariff, books, t, quantity).invoices)
  {
    var invoices := Opened(books.invoices, t.admin, t.month, StatusFor(tariff, t.admin)).0;
    assert OneOpen(invoices);
  }

  lemma BookOverage(tariff: Tariff, books: Books, t: Transaction, quantity: nat, number: nat)
    requires Unique(books.items) && OverageOk(books, number)
    ensures OverageOk(Book(tariff, books, t, quantity), number)
  {
    BookCharges(tariff, books, t, quantity, number);
    BookSumsCharges(tariff, books, t, quantity, number);
  }

  function OverageOf(invoices: seq<Invoice>, number: nat): int {
    if number < |invoices| then invoices[number].overage else 0
  }

  /** What booking charges to an invoice. */
  function Charged(tariff: Tariff, books: Books, t: Transaction, quantity: nat, number: nat): int {
    if Number(tariff, books, t) == number
    then (quantity - FreeShare(tariff, books, t, quantity)) * tariff.terms(t.admin, t.source).price
    else 0
  }

  lemma BookCharges(tariff: Tariff, books: Books, t: Transaction, quantity: nat, number: nat)
    ensures OverageOf(Book(tariff, books, t, quantity).invoices, number)
         == OverageOf(books.invoices, number) + Charged(tariff, books, t, quantity, number)
  {
  }

  lemma BookSumsCharges(tariff: Tariff, books: Books, t: Transaction, quantity: nat, number: nat)
    requires Unique(books.items)
    ensures Sum(Book(tariff, books, t, quantity).items, ChargedTo(number))
         == Sum(books.items, ChargedTo(number)) + Charged(tariff, books, t, quantity, number)
  {
    var price := tariff.terms(t.admin, t.source).price;
    KeyCharges(tariff, books, t, 0, number);
    KeyCharges(tariff, books, t, price, number);
    if Number(tariff, books, t) == number {
      BookPaid(tariff, books, t, quantity, ChargedTo(number), price);
    } else {
      BookPaid(tariff, books, t, quantity, ChargedTo(number), 0);
    }
  }

  /** A sum that does not count what is free counts what is paid. */
  lemma BookPaid(tariff: Tariff, books: Books, t: Transaction, quantity: nat, weight: ItemKey -> int, worth: int)
    requires Unique(books.items) && weight(KeyFor(tariff, books, t, 0)) == 0
    requires weight(KeyFor(tariff, books, t, tariff.terms(t.admin, t.source).price)) == worth
    ensures Sum(Book(tariff, books, t, quantity).items, weight)
         == Sum(books.items, weight) + (quantity - FreeShare(tariff, books, t, quantity)) * worth
  {
    BookEffect(tariff, books, t, quantity, weight);
  }

  lemma KeyCharges(tariff: Tariff, books: Books, t: Transaction, price: nat, number: nat)
    ensures ChargedTo(number)(KeyFor(tariff, books, t, price)) == if Number(tariff, books, t) == number then price else 0
  {
  }

  /** What the two items of a group add to each total. */
  lemma BookedShares(tariff: Tariff, books: Books, t: Transaction, quantity: nat, admin: Id, month: Id, source: Id)
    requires Unique(books.items)
    ensures var after := Book(tariff, books, t, quantity);
            var mine := UseOf(admin, month, source)(t);
            var free := if tariff.terms(t.admin, t.source).price == 0 then quantity else FreeShare(tariff, books, t, quantity);
            && Sum(after.items, AllOf(admin, month, source))
               == Sum(books.items, AllOf(admin, month, source)) + (if mine then quantity else 0)
            && Sum(after.items, FreeOf(admin, month, source))
               == Sum(books.items, FreeOf(admin, month, source)) + (if mine then free else 0)
  {
    BookEffect(tariff, books, t, quantity, AllOf(admin, month, source));
    BookEffect(tariff, books, t, quantity, FreeOf(admin, month, source));
    var zero, priced := KeyFor(tariff, books, t, 0), KeyFor(tariff, books, t, tariff.terms(t.admin, t.source).price);
    var mine := UseOf(admin, month, source)(t);
    assert AllOf(admin, month, source)(zero) == AllOf(admin, month, source)(priced) == if mine then 1 else 0;
    assert FreeOf(admin, month, source)(zero) == if mine then 1 else 0;
    assert FreeOf(admin, month, source)(priced) == if mine && priced.price == 0 then 1 else 0;
  }

  /** The free part of a group tops the free total up to what the larger usage allows. */
  lemma FreeShareTopsUp(tariff: Tariff, books: Books, t: Transaction, used: nat, quantity: nat)
    requires var terms := tariff.terms(t.admin, t.source);
             terms.price > 0 && Sum(books.items, FreeOf(t.admin, t.month, t.source)) == FreeTotal(terms, used)
    ensures var terms := tariff.terms(t.admin, t.source);
            FreeTotal(terms, used) + FreeShare(tariff, books, t, quantity) == FreeTotal(terms, used + quantity)
  {
  }

  lemma GroupUsage(s: State, n: nat, counts: Transaction -> bool)
    requires Possible(s, Aggregate(n))
    requires forall a, b :: SameGroup(a, b) ==> counts(a) == counts(b)
    ensures Usage(s.aggregated + s.pending[..n], counts)
            == Usage(s.aggregated, counts) + if counts(s.pending[0]) then Quantity(s.pending[..n]) else 0
  {
    var group := s.pending[..n];
    UsageConcat(s.aggregated, group, counts);
    forall i, j | 0 <= i < j < |group| ensures counts(group[i]) == counts(group[j]) {
      assert SameGroup(group[0], group[i]) && SameGroup(group[0], group[j]);
    }
    UsageOfGroup(group, counts);
  }

  lemma AggregateUsage(tariff: Tariff, s: State, n: nat, admin: Id, month: Id, source: Id)
    requires Possible(s, Aggregate(n)) && Unique(s.books.items) && UsageOk(tariff, s, admin, month, source)
    ensures UsageOk(tariff, Step(tariff, s, Aggregate(n)), admin, month, source)
  {
    var t := s.pending[0];
    var quantity := Quantity(s.pending[..n]);
    var counts := UseOf(admin, month, source);
    GroupUsage(s, n, counts);
    BookedShares(tariff, s.books, t, quantity, admin, month, source);
    if counts(t) && tariff.terms(admin, source).price > 0 {
      FreeShareTopsUp(tariff, s.books, t, Usage(s.aggregated, counts), quantity);
    }
  }

  /** A weight that counts both items of a group, or neither, gains the whole quantity or nothing. */
  lemma BookedInFull(tariff: Tariff, books: Books, t: Transaction, quantity: nat, weight: ItemKey -> int, counts: bool)
    requires Unique(books.items)
    requires weight(KeyFor(tariff, books, t, 0)) == if counts then 1 else 0
    requires weight(KeyFor(tariff, books, t, tariff.terms(t.admin, t.source).price)) == if counts then 1 else 0
    ensures Sum(Book(tariff, books, t, quantity).items, weight)
            == Sum(books.items, weight) + if counts then quantity else 0
  {
    BookEffect(tariff, books, t, quantity, weight);
  }

  lemma BookedInstance(tariff: Tariff, books: Books, t: Transaction, quantity: nat, admin: Id, instance: Id, month: Id, source: Id)
    requires Unique(books.items)
    ensures Sum(Book(tariff, books, t, quantity).items, InstanceOf(admin, instance, month, source))
            == Sum(books.items, InstanceOf(admin, instance, month, source))
               + if InstanceUseOf(admin, instance, month, source)(t) then quantity else 0
  {
    BookedInFull(tariff, books, t, quantity, InstanceOf(admin, instance, month, source),
                 InstanceUseOf(admin, instance, month, source)(t));
  }

  lemma AggregateInstance(tariff: Tariff, s: State, n: nat, admin: Id, instance: Id, month: Id, source: Id)
    requires Possible(s, Aggregate(n)) && Unique(s.books.items) && InstanceOk(s, admin, instance, month, source)
    ensures InstanceOk(Step(tariff, s, Aggregate(n)), admin, instance, month, source)
  {
    GroupUsage(s, n, InstanceUseOf(admin, instance, month, source));
    BookedInstance(tariff, s.books, s.pending[0], Quantity(s.pending[..n]), admin, instance, month, source);
  }

  lemma AggregateKeepsInv(tariff: Tariff, s: State, n: nat)
    requires Possible(s, Aggregate(n)) && Inv(tariff, s)
    ensures Inv(tariff, Step(tariff, s, Aggregate(n)))
  {
    var t := s.pending[0];
    var quantity := Quantity(s.pending[..n]);
    var after := Step(tariff, s, Aggregate(n));
    BookPrices(tariff, s.books, t, quantity);
    BookOneOpen(tariff, s.books, t, quantity);
    BookEffect(tariff, s.books, t, quantity, ChargedTo(0));
    forall admin, month, source ensures UsageOk(tariff, after, admin, month, source) {
      assert UsageOk(tariff, s, admin, month, source);
      AggregateUsage(tariff, s, n, admin, month, source);
    }
    forall admin, instance, month, source ensures InstanceOk(after, admin, instance, month, source) {
      assert InstanceOk(s, admin, instance, month, source);
      AggregateInstance(tariff, s, n, admin, instance, month, source);
    }
    forall number ensures OverageOk(after.books, number) {
      assert OverageOk(s.books, number);
      BookOverage(tariff, s.books, t, quantity, number);
    }
  }

  lemma StepKeepsInv(tariff: Tariff, s: State, a: Action)
    requires Possible(s, a) && Inv(tariff, s)
    ensures Inv(tariff, Step(tariff, s, a))
  {
    var after := Step(tariff, s, a);
    if a.Aggregate? {
      AggregateKeepsInv(tariff, s, a.n);
    } else {
      assert after.books.items == s.books.items && after.aggregated == s.aggregated;
      forall admin, month, source ensures UsageOk(tariff, after, admin, month, source) {
        assert UsageOk(tariff, s, admin, month, source);
      }
      forall admin, instance, month, source ensures InstanceOk(after, admin, instance, month, source) {
        assert InstanceOk(s, admin, instance, month, source);
      }
      forall number ensures OverageOk(after.books, number) {
        assert OverageOk(s.books, number);
      }
    }
  }

  /** Every transaction recorded in a run, in order. */
  function Recorded(actions: seq<Action>): seq<Transaction> {
    if actions == [] then []
    else (if actions[0].Record? then [actions[0].t] else []) + Recorded(actions[1..])
  }

  lemma {:induction false} RunKeepsInv(tariff: Tariff, s: State, actions: seq<Action>)
    requires IsRun(tariff, s, actions) && Inv(tariff, s)
    ensures Inv(tariff, Execute(tariff, s, actions))
    decreases |actions|
  {
    if actions != [] {
      StepKeepsInv(tariff, s, actions[0]);
      RunKeepsInv(tariff, Step(tariff, s, actions[0]), actions[1..]);
    }
  }

  /** Everything a state has been told, aggregated or not. */
  ghost function Known(s: State): multiset<Transaction> {
    multiset(s.aggregated) + multiset(s.pending)
  }

  lemma StepKeepsTransactions(tariff: Tariff, s: State, a: Action)
    requires Possible(s, a)
    ensures Known(Step(tariff, s, a)) == Known(s) + if a.Record? then multiset{a.t} else multiset{}
  {
    if a.Aggregate? {
      assert s.pending == s.pending[..a.n] + s.pending[a.n..];
    }
  }

  lemma {:induction false} RunKeepsTransactions(tariff: Tariff, s: State, actions: seq<Action>)
    requires IsRun(tariff, s, actions)
    ensures Known(Execute(tariff, s, actions)) == Known(s) + multiset(Recorded(actions))
    decreases |actions|
  {
    if actions != [] {
      var a := actions[0];
      StepKeepsTransactions(tariff, s, a);
      RunKeepsTransactions(tariff, Step(tariff, s, a), actions[1..]);
    }
  }

  lemma InitialInv(tariff: Tariff)
    ensures Inv(tariff, INITIAL)
  {
  }

  // ------------------------------------------------------------------ what a month comes to

  lemma {:induction false} SumSplits(items: seq<Item>, admin: Id, month: Id, source: Id)
    ensures Sum(items, AllOf(admin, month, source))
            == Sum(items, FreeOf(admin, month, source)) + Sum(items, PaidOf(admin, month, source))
  {
    if items != [] { SumSplits(items[..|items| - 1], admin, month, source); }
  }

  function ChargeOf(admin: Id, month: Id, source: Id): ItemKey -> int {
    (k: ItemKey) => if For(k, admin, month, source) then k.price else 0
  }

  lemma {:induction false} SumCharges(tariff: Tariff, items: seq<Item>, admin: Id, month: Id, source: Id)
    requires PricesOk(tariff, items)
    ensures Sum(items, ChargeOf(admin, month, source))
            == tariff.terms(admin, source).price * Sum(items, PaidOf(admin, month, source))
  {
    if items != [] {
      var front, last := items[..|items| - 1], items[|items| - 1];
      SumCharges(tariff, front, admin, month, source);
      assert PriceOk(tariff, last);
      var price := tariff.terms(admin, source).price;
      var paid := Sum(front, PaidOf(admin, month, source));
      if For(last.key, admin, month, source) && last.key.price > 0 {
        assert price * (paid + last.quantity) == price * paid + price * last.quantity;
      }
    }
  }

  /** The free, paid and charged totals of an admin, month and source. */
  datatype Bill = Bill(free: int, paid: int, charged: int)

  function BillOf(books: Books, admin: Id, month: Id, source: Id): Bill {
    Bill(Sum(books.items, FreeOf(admin, month, source)), Sum(books.items, PaidOf(admin, month, source)),
         Sum(books.items, ChargeOf(admin, month, source)))
  }

  /** What a plan makes of a usage, said without invoices. */
  function Due(terms: Terms, used: nat): Bill {
    var free := FreeTotal(terms, used);
    Bill(free, used - free, terms.price * (used - free))
  }

  /** With a limit and a price: the first units up to the limit are free and the rest are paid. */
  lemma DueWithLimit(terms: Terms, used: nat)
    requires terms.limit >= 0 && terms.price > 0
    ensures Due(terms, used) == Bill(Min(terms.limit, used), Max(0, used - terms.limit), terms.price * Max(0, used - terms.limit))
  {
  }

  lemma BillIsDue(tariff: Tariff, s: State, admin: Id, month: Id, source: Id)
    requires Inv(tariff, s)
    ensures BillOf(s.books, admin, month, source)
            == Due(tariff.terms(admin, source), Usage(s.aggregated, UseOf(admin, month, source)))
  {
    assert UsageOk(tariff, s, admin, month, source);
    SumSplits(s.books.items, admin, month, source);
    SumCharges(tariff, s.books.items, admin, month, source);
  }

  /**
    In every state of every run: what is booked for an admin, month and source is exactly what the plan makes of the
    usage aggregated so far, and booked and pending quantities of each instance add up to what was recorded.
   */
  lemma UsageIsConserved(tariff: Tariff, actions: seq<Action>, admin: Id, instance: Id, month: Id, source: Id)
    requires IsRun(tariff, INITIAL, actions)
    ensures var s := Execute(tariff, INITIAL, actions);
            var mine := InstanceUseOf(admin, instance, month, source);
            && BillOf(s.books, admin, month, source)
               == Due(tariff.terms(admin, source), Usage(s.aggregated, UseOf(admin, month, source)))
            && Sum(s.books.items, InstanceOf(admin, instance, month, source)) + Usage(s.pending, mine)
               == Usage(Recorded(actions), mine)
  {
    var s := Execute(tariff, INITIAL, actions);
    var mine := InstanceUseOf(admin, instance, month, source);
    InitialInv(tariff);
    RunKeepsInv(tariff, INITIAL, actions);
    BillIsDue(tariff, s, admin, month, source);
    assert InstanceOk(s, admin, instance, month, source);
    RunKeepsTransactions(tariff, INITIAL, actions);
    UsageConcat(s.aggregated, s.pending, mine);
    assert multiset(s.aggregated + s.pending) == multiset(Recorded(actions));
    UsageReordered(s.aggregated + s.pending, Recorded(actions), mine);
  }

  /** Each invoice's overage amount is the price times the quantity of its items, and open invoices are unambiguous. */
  lemma InvoicesAddUp(tariff: Tariff, actions: seq<Action>, number: nat)
    requires IsRun(tariff, INITIAL, actions) && number < |Execute(tariff, INITIAL, actions).books.invoices|
    ensures var books := Execute(tariff, INITIAL, actions).books;
            && books.invoices[number].overage == Sum(books.items, ChargedTo(number))
            && Unique(books.items) && OneOpen(books.invoices)
  {
    InitialInv(tariff);
    RunKeepsInv(tariff, INITIAL, actions);
    assert OverageOk(Execute(tariff, INITIAL, actions).books, number);
  }

  lemma DrainedAggregatesAll(tariff: Tariff, actions: seq<Action>)
    requires IsRun(tariff, INITIAL, actions) && Execute(tariff, INITIAL, actions).pending == []
    ensures multiset(Execute(tariff, INITIAL, actions).aggregated) == multiset(Recorded(actions))
  {
    RunKeepsTransactions(tariff, INITIAL, actions);
    var s := Execute(tariff, INITIAL, actions);
    assert multiset(s.pending) == multiset{} && Known(s) == multiset(s.aggregated);
    assert Known(INITIAL) == multiset{};
  }

  /** Once drained, the month depends on the recorded usage alone, not on order, grouping, chunks or dispatches. */
  lemma DrainedBillIsDue(tariff: Tariff, actions: seq<Action>, admin: Id, month: Id, source: Id)
    requires IsRun(tariff, INITIAL, actions) && Execute(tariff, INITIAL, actions).pending == []
    ensures BillOf(Execute(tariff, INITIAL, actions).books, admin, month, source)
            == Due(tariff.terms(admin, source), Usage(Recorded(actions), UseOf(admin, month, source)))
  {
    var s := Execute(tariff, INITIAL, actions);
    InitialInv(tariff);
    RunKeepsInv(tariff, INITIAL, actions);
    BillIsDue(tariff, s, admin, month, source);
    DrainedAggregatesAll(tariff, actions);
    UsageReordered(s.aggregated, Recorded(actions), UseOf(admin, month, source));
  }

  lemma BillsDoNotDependOnTheRun(tariff: Tariff, one: seq<Action>, other: seq<Action>, admin: Id, month: Id, source: Id)
    requires IsRun(tariff, INITIAL, one) && Execute(tariff, INITIAL, one).pending == []
    requires IsRun(tariff, INITIAL, other) && Execute(tariff, INITIAL, other).pending == []
    requires multiset(Recorded(one)) == multiset(Recorded(other))
    ensures BillOf(Execute(tariff, INITIAL, one).books, admin, month, source)
            == BillOf(Execute(tariff, INITIAL, other).books, admin, month, source)
  {
    DrainedBillIsDue(tariff, one, admin, month, source);
    DrainedBillIsDue(tariff, other, admin, month, source);
    UsageReordered(Recorded(one), Recorded(other), UseOf(admin, month, source));
  }
}
