/** Record shapes shared by the store, the sync hook and the screens, and the
    few string operations the app applies to them. Money is counted in whole
    cents. An optional property of a record (`email?`, `synced?`, ...) is an
    `Option`; a JavaScript test `!record.synced` treats a missing flag as false. */
module Types {

  datatype Option<+T> = None | Some(value: T)

  datatype PaymentMethod = Cash | Card | Digital

  /** A signed-in user; only `id` is used by the core (as a sale's cashier). */
  datatype User = User(id: string, email: string, name: string)

  datatype Customer = Customer(
    id: string,
    name: string,
    phone: string,
    email: Option<string>,
    createdAt: string,
    updatedAt: string,
    synced: Option<bool>)

  /** One line of a sale: a service from the catalogue, its unit price and how many. */
  datatype SaleItem = SaleItem(id: string, name: string, price: int, quantity: int)

  datatype Sale = Sale(
    id: string,
    customerId: Option<string>,
    customerName: Option<string>,
    services: seq<SaleItem>,
    total: int,
    paymentMethod: PaymentMethod,
    cashierId: string,
    createdAt: string,
    synced: Option<bool>)

  datatype SyncStatus = SyncStatus(isOnline: bool, pendingSync: int, lastSync: Option<string>)

  datatype ServiceCount = ServiceCount(name: string, count: int)

  datatype DashboardStats = DashboardStats(
    todaysSales: int,
    todaysTransactions: int,
    todaysRevenue: int,
    popularServices: seq<ServiceCount>)

  /** JavaScript truthiness of an optional boolean flag. */
  predicate IsTrue(flag: Option<bool>) {
    flag == Some(true)
  }

  /** JavaScript truthiness of an optional string: present and not empty. */
  predicate IsNonEmpty(s: Option<string>) {
    s.Some? && s.value != ""
  }

  /** `s.startsWith(prefix)` */
  predicate StartsWith(s: string, prefix: string) {
    |prefix| <= |s| && s[..|prefix|] == prefix
  }

  /** `s.includes(part)`: `part` occurs at some position of `s`. */
  predicate Contains(s: string, part: string)
    decreases |s|
  {
    StartsWith(s, part) || (s != [] && Contains(s[1..], part))
  }

  /** `part` occurs in `s` starting at position `i`. */
  predicate OccursAt(s: string, part: string, i: int) {
    0 <= i && i + |part| <= |s| && s[i..i + |part|] == part
  }

  /** `includes` finds `part` exactly when it occurs at some position of `s`. */
  lemma {:induction false} ContainsAt(s: string, part: string)
    ensures Contains(s, part) <==> exists i :: OccursAt(s, part, i)
    decreases |s|
  {
    if StartsWith(s, part) {
      assert OccursAt(s, part, 0);
    } else if s != [] {
      ContainsAt(s[1..], part);
      if Contains(s, part) {
        var j :| OccursAt(s[1..], part, j);
        OccursAtTail(s, part, j + 1);
      } else {
        forall i | OccursAt(s, part, i) ensures false {
          if i > 0 {
            OccursAtTail(s, part, i);
          }
        }
      }
    }
  }

  /** An occurrence past the first position is an occurrence in the tail, one place earlier. */
  lemma OccursAtTail(s: string, part: string, i: int)
    requires s != [] && i > 0
    ensures OccursAt(s, part, i) <==> OccursAt(s[1..], part, i - 1)
  {
    if i + |part| <= |s| {
      var here, there := s[i..i + |part|], s[1..][i - 1..i - 1 + |part|];
      assert here == there by {
        forall k | 0 <= k < |part| ensures here[k] == there[k] {
        }
      }
    }
  }

  /** Every string includes the empty string. */
  lemma ContainsEmpty(s: string)
    ensures Contains(s, "")
  {
    assert StartsWith(s, "");
  }

  /** Rendering of a non-negative integer in decimal, as `${n}` does for `Date.now()`. */
  function DecimalString(n: nat): (r: string)
    ensures |r| >= 1
    ensures forall i :: 0 <= i < |r| ==> '0' <= r[i] <= '9'
  {
    if n < 10 then [Digit(n)] else DecimalString(n / 10) + [Digit(n % 10)]
  }

  function Digit(d: nat): (c: char)
    requires d < 10
    ensures '0' <= c <= '9'
  {
    ['0', '1', '2', '3', '4', '5', '6', '7', '8', '9'][d]
  }

  /** The sum of `total` over a list of sales (`reduce((sum, sale) => sum + sale.total, 0)`). */
  function SumTotals(sales: seq<Sale>): int
  {
    if sales == [] then 0 else SumTotals(sales[..|sales| - 1]) + sales[|sales| - 1].total
  }

  lemma {:induction false} SumTotalsAppend(a: seq<Sale>, b: seq<Sale>)
    ensures SumTotals(a + b) == SumTotals(a) + SumTotals(b)
    decreases |b|
  {
    if b == [] {
      assert a + b == a;
    } else {
      assert (a + b)[..|a + b| - 1] == a + b[..|b| - 1];
      SumTotalsAppend(a, b[..|b| - 1]);
    }
  }
}
