/** The dashboard's figures for today: the sales whose `createdAt` starts with today's
    date, their revenue and count, and the five services sold in the largest
    quantities. Today's date (`format(new Date(), 'yyyy-MM-dd')`) is a parameter. */
module Dashboard {
  import opened Types
  import opened Seqs
  import opened Db
  import KeyOrder

  /** Every line of every sale, sale by sale and line by line. */
  function Items(sales: seq<Sale>): seq<SaleItem>
    decreases |sales|
  {
    if sales == [] then [] else Items(sales[..|sales| - 1]) + sales[|sales| - 1].services
  }

  /** The quantity sold of the service called `name`: the sum of `quantity` over the
      lines with that name. */
  function Quantity(items: seq<SaleItem>, name: string): int
    decreases |items|
  {
    if items == [] then 0
    else
      var last := items[|items| - 1];
      Quantity(items[..|items| - 1], name) + (if last.name == name then last.quantity else 0)
  }

  /** The service names among `items`, each once, in the order they first appear. */
  function Names(items: seq<SaleItem>): (r: seq<string>)
    ensures Distinct(r)
    ensures forall n :: n in r <==> exists k :: 0 <= k < |items| && items[k].name == n
    decreases |items|
  {
    if items == [] then []
    else
      var rest := Names(items[..|items| - 1]);
      var last := items[|items| - 1].name;
      assert forall n :: n in rest <==> exists k :: 0 <= k < |items| - 1 && items[k].name == n
        by { forall n ensures n in rest <==> exists k :: 0 <= k < |items| - 1 && items[k].name == n {
               if n in rest {
                 var k :| 0 <= k < |items[..|items| - 1]| && items[..|items| - 1][k].name == n;
                 assert items[k].name == n;
               }
               if exists k :: 0 <= k < |items| - 1 && items[k].name == n {
                 var k :| 0 <= k < |items| - 1 && items[k].name == n;
                 assert items[..|items| - 1][k].name == n;
               }
             } }
      if last in rest then rest else rest + [last]
  }

  lemma QuantitySnoc(items: seq<SaleItem>, x: SaleItem, name: string)
    ensures Quantity(items + [x], name) == Quantity(items, name) + (if x.name == name then x.quantity else 0)
  {
    assert (items + [x])[..|items|] == items;
  }

  lemma NamesSnoc(items: seq<SaleItem>, x: SaleItem)
    ensures Names(items + [x]) == if x.name in Names(items) then Names(items) else Names(items) + [x.name]
  {
    assert (items + [x])[..|items|] == items;
  }

  lemma ItemsSnoc(sales: seq<Sale>, i: nat)
    requires i < |sales|
    ensures Items(sales[..i + 1]) == Items(sales[..i]) + sales[i].services
  {
    assert sales[..i + 1][..i] == sales[..i];
  }

  /** Lines of a name that never occurs add nothing. */
  lemma {:induction false} QuantityAbsent(items: seq<SaleItem>, name: string)
    requires forall k :: 0 <= k < |items| ==> items[k].name != name
    ensures Quantity(items, name) == 0
    decreases |items|
  {
    if items != [] {
      QuantityAbsent(items[..|items| - 1], name);
    }
  }

  /** `counts` and `order` hold the tally of `items`: the names in first-appearance
      order, and under each its quantity sold. */
  ghost predicate Tallied(counts: map<string, int>, order: seq<string>, items: seq<SaleItem>) {
    && order == Names(items)
    && (forall n :: n in counts <==> n in order)
    && (forall n :: n in counts ==> counts[n] == Quantity(items, n))
  }

  /** `serviceCount[name] = (serviceCount[name] || 0) + quantity` */
  function AddCount(counts: map<string, int>, item: SaleItem): map<string, int> {
    counts[item.name := (if item.name in counts then counts[item.name] else 0) + item.quantity]
  }

  /** The key order of `serviceCount` after that assignment: a new name goes last. */
  function AddName(counts: map<string, int>, order: seq<string>, item: SaleItem): seq<string> {
    if item.name in counts then order else order + [item.name]
  }

  /** One step of the tally keeps it the tally of the lines seen so far. */
  lemma TallyStep(counts: map<string, int>, order: seq<string>, items: seq<SaleItem>, item: SaleItem)
    requires Tallied(counts, order, items)
    ensures Tallied(AddCount(counts, item), AddName(counts, order, item), items + [item])
  {
    NamesSnoc(items, item);
    forall n
      ensures Quantity(items + [item], n) == Quantity(items, n) + (if item.name == n then item.quantity else 0)
    {
      QuantitySnoc(items, item, n);
    }
    if item.name !in counts {
      QuantityAbsent(items, item.name);
    }
  }

  /** The inner `forEach`: adds the lines of one sale to the tally. */
  method TallyLines(counts0: map<string, int>, order0: seq<string>, ghost done: seq<SaleItem>,
                    services: seq<SaleItem>)
    returns (counts: map<string, int>, order: seq<string>)
    requires Tallied(counts0, order0, done)
    ensures Tallied(counts, order, done + services)
  {
    counts, order := counts0, order0;
    var j := 0;
    assert done + services[..0] == done;
    while j < |services|
      invariant 0 <= j <= |services|
      invariant Tallied(counts, order, done + services[..j])
    {
      var item := services[j];
      ghost var seen := done + services[..j];
      assert done + services[..j + 1] == seen + [item];
      TallyStep(counts, order, seen, item);
      counts, order := AddCount(counts, item), AddName(counts, order, item);
      j := j + 1;
    }
    assert services[..j] == services;
  }

  /** The nested `forEach` that fills `serviceCount`. `order` is the order in which
      names were first added, the order `Object.entries` lists them in. */
  method TallyServices(sales: seq<Sale>) returns (counts: map<string, int>, order: seq<string>)
    ensures order == Names(Items(sales))
    ensures forall n :: n in counts <==> n in order
    ensures forall n :: n in counts ==> counts[n] == Quantity(Items(sales), n)
  {
    counts, order := map[], [];
    var i := 0;
    while i < |sales|
      invariant 0 <= i <= |sales|
      invariant Tallied(counts, order, Items(sales[..i]))
    {
      ItemsSnoc(sales, i);
      counts, order := TallyLines(counts, order, Items(sales[..i]), sales[i].services);
      i := i + 1;
    }
    assert sales[..i] == sales;
  }

  function CountOf(e: ServiceCount): int { e.count }

  /** `Object.entries(serviceCount).map(([name, count]) => ({ name, count }))` */
  function Entries(counts: map<string, int>, order: seq<string>): seq<ServiceCount>
    requires forall i :: 0 <= i < |order| ==> order[i] in counts
  {
    seq(|order|, i requires 0 <= i < |order| => ServiceCount(order[i], counts[order[i]]))
  }

  /** `.sort((a, b) => b.count - a.count).slice(0, 5)` */
  function Popular(entries: seq<ServiceCount>): (r: seq<ServiceCount>)
    ensures |r| <= 5
  {
    Take(SortDesc(entries, CountOf), 5)
  }

  /** No two entries share a name. */
  ghost predicate UniqueNames(entries: seq<ServiceCount>) {
    forall i, j :: 0 <= i < j < |entries| ==> entries[i].name != entries[j].name
  }

  /** The sorted list has the tally's entries, each as often as the tally has it. */
  lemma SortedFromEntries(entries: seq<ServiceCount>)
    ensures var sorted := SortDesc(entries, CountOf);
      && |sorted| == |entries|
      && (forall e :: e in sorted <==> e in entries)
  {
    var sorted := SortDesc(entries, CountOf);
    assert |sorted| == |multiset(sorted)| == |multiset(entries)| == |entries|;
    forall e
      ensures e in sorted <==> e in entries
    {
      assert e in sorted <==> e in multiset(sorted);
      assert e in entries <==> e in multiset(entries);
    }
  }

  /** At most five entries, all taken from the tally, largest count first. */
  lemma PopularTaken(entries: seq<ServiceCount>)
    ensures var r := Popular(entries);
      && |r| == (if |entries| < 5 then |entries| else 5)
      && (forall i :: 0 <= i < |r| ==> r[i] in entries)
      && SortedDesc(r, CountOf)
  {
    var sorted := SortDesc(entries, CountOf);
    var r := Popular(entries);
    SortedFromEntries(entries);
    assert r == sorted[..|r|];
    forall i | 0 <= i < |r|
      ensures r[i] in entries
    {
      assert r[i] == sorted[i];
    }
  }

  /** With names unique in the tally, they are unique among the kept entries. */
  lemma PopularUnique(entries: seq<ServiceCount>)
    requires UniqueNames(entries)
    ensures UniqueNames(Popular(entries))
  {
    var sorted := SortDesc(entries, CountOf);
    var r := Popular(entries);
    SortedFromEntries(entries);
    assert r == sorted[..|r|];
    assert Distinct(entries);
    DistinctPermutation(entries, sorted);
    forall i, j | 0 <= i < j < |r|
      ensures r[i].name != r[j].name
    {
      assert r[i] == sorted[i] && r[j] == sorted[j];
      assert sorted[i] in sorted && sorted[j] in sorted;
      var a :| 0 <= a < |entries| && entries[a] == r[i];
      var b :| 0 <= b < |entries| && entries[b] == r[j];
      assert a != b;
    }
  }

  /** No entry that is cut off has a larger count than a kept one. */
  lemma PopularCutOff(entries: seq<ServiceCount>, e: ServiceCount)
    requires e in entries && e !in Popular(entries)
    ensures forall i :: 0 <= i < |Popular(entries)| ==> Popular(entries)[i].count >= e.count
  {
    var sorted := SortDesc(entries, CountOf);
    var r := Popular(entries);
    SortedFromEntries(entries);
    assert r == sorted[..|r|];
    var k :| 0 <= k < |sorted| && sorted[k] == e;
    assert k >= |r|;
    forall i | 0 <= i < |r|
      ensures r[i].count >= e.count
    {
      assert r[i] == sorted[i];
    }
  }

  /** The tally as a list in name order: each name with its quantity sold. */
  function Tally(items: seq<SaleItem>): (r: seq<ServiceCount>)
    ensures |r| == |Names(items)|
    ensures UniqueNames(r)
    ensures forall i :: 0 <= i < |r| ==> r[i].name == Names(items)[i] && r[i].count == Quantity(items, r[i].name)
  {
    var names := Names(items);
    seq(|names|, i requires 0 <= i < |names| => ServiceCount(names[i], Quantity(items, names[i])))
  }

  /** The dashboard's figures computed from every stored sale, for the day `today`. */
  method ComputeStats(all: seq<Sale>, today: string) returns (stats: DashboardStats)
    ensures var todays := OnDate(all, today);
      && stats.todaysSales == |todays| && stats.todaysTransactions == |todays|
      && stats.todaysRevenue == SumTotals(todays)
      && stats.popularServices == Popular(Tally(Items(todays)))
  {
    var todays := OnDate(all, today);
    var revenue := SumTotals(todays);
    var counts, order := TallyServices(todays);
    var entries := Entries(counts, order);
    assert entries == Tally(Items(todays));
    stats := DashboardStats(|todays|, |todays|, revenue, Popular(entries));
  }

  /** Every service shown was sold today, with its quantity sold today. */
  lemma PopularSold(items: seq<SaleItem>)
    ensures var p := Popular(Tally(items));
      forall i :: 0 <= i < |p| ==> p[i].name in Names(items) && p[i].count == Quantity(items, p[i].name)
  {
    var entries := Tally(items);
    var p := Popular(entries);
    PopularTaken(entries);
    forall i | 0 <= i < |p|
      ensures p[i].name in Names(items) && p[i].count == Quantity(items, p[i].name)
    {
      assert p[i] in entries;
    }
  }

  /** A service sold today is shown, or sold no more than every service shown. */
  lemma PopularNotOutsold(items: seq<SaleItem>)
    ensures var p := Popular(Tally(items));
      forall n :: n in Names(items) ==>
        (exists i :: 0 <= i < |p| && p[i].name == n)
        || (forall i :: 0 <= i < |p| ==> p[i].count >= Quantity(items, n))
  {
    var entries := Tally(items);
    var p := Popular(entries);
    forall n | n in Names(items)
      ensures (exists i :: 0 <= i < |p| && p[i].name == n)
              || (forall i :: 0 <= i < |p| ==> p[i].count >= Quantity(items, n))
    {
      var k :| 0 <= k < |Names(items)| && Names(items)[k] == n;
      var e := entries[k];
      if e in p {
        var i :| 0 <= i < |p| && p[i] == e;
      } else {
        PopularCutOff(entries, e);
      }
    }
  }

  /** What the dashboard shows about the services: at most five of the names sold today,
      each with its quantity sold today, no name twice, largest first, fewer than five
      only when fewer names were sold, and no name left out sold more than one shown. */
  lemma PopularServicesSpec(todays: seq<Sale>)
    ensures var items := Items(todays);
      var p := Popular(Tally(items));
      && |p| == (if |Names(items)| < 5 then |Names(items)| else 5)
      && (forall i :: 0 <= i < |p| ==> p[i].name in Names(items) && p[i].count == Quantity(items, p[i].name))
      && UniqueNames(p)
      && SortedDesc(p, CountOf)
      && (forall n :: n in Names(items) ==>
            (exists i :: 0 <= i < |p| && p[i].name == n)
            || (forall i :: 0 <= i < |p| ==> p[i].count >= Quantity(items, n)))
  {
    var items := Items(todays);
    PopularTaken(Tally(items));
    PopularUnique(Tally(items));
    PopularSold(items);
    PopularNotOutsold(items);
  }

  /** `loadDashboardStats`: reads every stored sale and computes the figures. */
  method LoadDashboardStats(db: CarWashDb, today: string) returns (stats: DashboardStats)
    modifies db`isOpen
    ensures db.isOpen
    ensures var todays := OnDate(KeyOrder.ValuesByKey(db.sales), today);
      && stats.todaysSales == |todays| && stats.todaysTransactions == |todays|
      && stats.todaysRevenue == SumTotals(todays)
      && stats.popularServices == Popular(Tally(Items(todays)))
  {
    var all := db.GetSales();
    stats := ComputeStats(all, today);
  }
}
