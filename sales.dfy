/** The sales history: the chosen day's sales, newest first, their count and
    revenue, and the two per-sale labels. Date parsing (`new Date(s).getTime()`) is
    the parameter `time`. */
module SalesPage {
  import opened Types
  import opened Seqs
  import opened Db
  import KeyOrder
  import SaleForm

  /** The sort key: the time `createdAt` denotes. */
  function CreatedTime(time: string -> int): Sale -> int {
    (s: Sale) => time(s.createdAt)
  }

  /** `data.sort((a, b) => time(b.createdAt) - time(a.createdAt))`: the same sales,
      latest first. */
  function NewestFirst(sales: seq<Sale>, time: string -> int): (r: seq<Sale>)
    ensures multiset(r) == multiset(sales)
    ensures forall i, j :: 0 <= i < j < |r| ==> time(r[i].createdAt) >= time(r[j].createdAt)
  {
    var r := SortDesc(sales, CreatedTime(time));
    assert SortedDesc(r, CreatedTime(time));
    r
  }

  /** `sale.customerName || 'Walk-in Customer'` */
  function CustomerLabel(sale: Sale): (shown: string)
    ensures shown != ""
    ensures shown == "Walk-in Customer" || sale.customerName == Some(shown)
    ensures IsNonEmpty(sale.customerName) ==> shown == sale.customerName.value
    ensures !IsNonEmpty(sale.customerName) ==> shown == "Walk-in Customer"
  {
    if IsNonEmpty(sale.customerName) then sale.customerName.value else "Walk-in Customer"
  }

  /** The "Pending sync" badge: `!sale.synced`. */
  predicate PendingBadge(sale: Sale) {
    !IsTrue(sale.synced)
  }

  lemma {:induction false} SumTotalsCons(x: Sale, s: seq<Sale>)
    ensures SumTotals([x] + s) == x.total + SumTotals(s)
  {
    SumTotalsAppend([x], s);
    assert [x][..0] == [];
  }

  /** Inserting a sale into a list adds its total to the list's sum. */
  lemma {:induction false} SumTotalsInsert(x: Sale, s: seq<Sale>, key: Sale -> int)
    ensures SumTotals(InsertDesc(x, s, key)) == SumTotals(s) + x.total
    decreases |s|
  {
    if s == [] {
      assert [x][..0] == [];
    } else if key(s[0]) >= key(x) {
      SumTotalsInsert(x, s[1..], key);
      SumTotalsCons(s[0], InsertDesc(x, s[1..], key));
      SumTotalsCons(s[0], s[1..]);
      assert s == [s[0]] + s[1..];
    } else {
      SumTotalsCons(x, s);
    }
  }

  /** Sorting does not change the sum of the totals. */
  lemma {:induction false} SumTotalsSorted(s: seq<Sale>, key: Sale -> int)
    ensures SumTotals(SortDesc(s, key)) == SumTotals(s)
    decreases |s|
  {
    if s != [] {
      var init := s[..|s| - 1];
      SumTotalsSorted(init, key);
      SumTotalsInsert(s[|s| - 1], SortDesc(init, key), key);
    }
  }

  /** The revenue shown does not depend on the order the list is in: it is the sum of
      the totals of the day's sales as fetched. */
  lemma RevenueOfSortedList(sales: seq<Sale>, time: string -> int)
    ensures SumTotals(NewestFirst(sales, time)) == SumTotals(sales)
    ensures |NewestFirst(sales, time)| == |sales|
  {
    SumTotalsSorted(sales, CreatedTime(time));
    var r := NewestFirst(sales, time);
    assert |r| == |multiset(r)| == |multiset(sales)| == |sales|;
  }

  /** A sale recorded by the sale form shows the "Pending sync" badge (nothing in the
      app ever sets `synced` to true), and is labelled with the name of the customer
      picked for it, unless that name is empty. */
  lemma RecordedSaleLabels(data: SaleForm.SaleFormData, cart: seq<SaleItem>, user: User,
                           customers: seq<Customer>, clock: Clock, suffix: string, k: nat)
    requires IsNonEmpty(data.customerId)
    requires k < |customers| && customers[k].id == data.customerId.value
    requires forall i :: 0 <= i < k ==> customers[i].id != data.customerId.value
    ensures var sale := SaleForm.BuildSale(data, cart, user, customers, clock, suffix);
      && PendingBadge(sale)
      && CustomerLabel(sale) == (if customers[k].name != "" then customers[k].name else "Walk-in Customer")
  {
    SaleForm.SaleCustomerNameChosen(data, customers, k);
  }

  /** `loadSalesByDate`: the stored sales of `date`, newest first. */
  method LoadSalesByDate(db: CarWashDb, date: string, time: string -> int) returns (sales: seq<Sale>)
    modifies db`isOpen
    ensures db.isOpen
    ensures sales == NewestFirst(OnDate(KeyOrder.ValuesByKey(db.sales), date), time)
  {
    var data := db.GetSalesByDate(date);
    sales := NewestFirst(data, time);
  }

  /** The history lists exactly the stored sales of that day. */
  lemma HistoryListsDay(stored: map<string, Sale>, date: string, time: string -> int, s: Sale)
    requires KeyedBy(stored, SaleKey)
    ensures s in NewestFirst(OnDate(KeyOrder.ValuesByKey(stored), date), time)
        <==> s in stored.Values && StartsWith(s.createdAt, date)
  {
    var day := OnDate(KeyOrder.ValuesByKey(stored), date);
    SalesByDateExact(stored, date, s);
    var r := NewestFirst(day, time);
    assert s in r <==> s in multiset(r);
    assert s in day <==> s in multiset(day);
  }
}
