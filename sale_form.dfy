/** The new-sale form: a cart of selected services that the cashier grows,
    adjusts and trims, its running total, the customer picker's search, and the
    submit step that turns the cart into a stored sale. The service catalogue,
    the clock, the random id suffix and `toLowerCase` are parameters. */
module SaleForm {
  import opened Types
  import opened Seqs
  import opened Db

  /** An entry of the service catalogue. */
  datatype Service = Service(id: string, name: string, price: int)

  /** The test of `carWashServices.find(s => s.id === serviceId)`. */
  function ServiceWithId(id: string): Service -> bool {
    (s: Service) => s.id == id
  }

  /** `selectedServices.find(s => s.id === serviceId)` finds something. */
  predicate InCart(cart: seq<SaleItem>, id: string) {
    exists i :: 0 <= i < |cart| && cart[i].id == id
  }

  /** `InCart` is exactly the test `existingService` makes: the cart's `find` on the id
      returns something. */
  lemma InCartIffFound(cart: seq<SaleItem>, id: string)
    ensures InCart(cart, id) <==> Find(cart, (s: SaleItem) => s.id == id).Some?
  {
  }

  /** The cart invariant: no id twice, and every quantity at least 1. */
  ghost predicate WellFormed(cart: seq<SaleItem>) {
    && (forall i, j :: 0 <= i < j < |cart| ==> cart[i].id != cart[j].id)
    && (forall i :: 0 <= i < |cart| ==> cart[i].quantity >= 1)
  }

  /** `addService`: an id missing from the catalogue changes nothing; an id already in
      the cart adds one to that item's quantity; any other id is appended with
      quantity 1. */
  function AddToCart(cart: seq<SaleItem>, catalogue: seq<Service>, id: string): (r: seq<SaleItem>)
    ensures Find(catalogue, ServiceWithId(id)).None? ==> r == cart
    ensures Find(catalogue, ServiceWithId(id)).Some? ==>
      InCart(r, id) && |r| == |cart| + (if InCart(cart, id) then 0 else 1)
  {
    match Find(catalogue, ServiceWithId(id))
    case None => cart
    case Some(service) =>
      if InCart(cart, id) then
        var r := Bumped(cart, id);
        assert InCart(r, id) by {
          var k :| 0 <= k < |cart| && cart[k].id == id;
          assert r[k].id == id;
        }
        r
      else
        var r := cart + [SaleItem(service.id, service.name, service.price, 1)];
        assert r[|cart|].id == id;
        r
  }

  /** One more unit of the item with `id`, as `addService` maps the cart. */
  function Bumped(cart: seq<SaleItem>, id: string): seq<SaleItem> {
    seq(|cart|, i requires 0 <= i < |cart| =>
      if cart[i].id == id then cart[i].(quantity := cart[i].quantity + 1) else cart[i])
  }

  /** `Math.max(0, q + change)` applied to the item with `id`, before the filter. */
  function Adjusted(cart: seq<SaleItem>, id: string, change: int): seq<SaleItem> {
    seq(|cart|, i requires 0 <= i < |cart| =>
      if cart[i].id == id
      then cart[i].(quantity := if cart[i].quantity + change > 0 then cart[i].quantity + change else 0)
      else cart[i])
  }

  function Positive(s: SaleItem): bool { s.quantity > 0 }

  function OtherThan(id: string): SaleItem -> bool {
    (s: SaleItem) => s.id != id
  }

  /** `updateServiceQuantity`: adjust, then keep the items whose quantity is above 0. */
  function UpdateQuantity(cart: seq<SaleItem>, id: string, change: int): (r: seq<SaleItem>)
    ensures |r| <= |cart|
    ensures forall i :: 0 <= i < |r| ==> r[i].quantity > 0
  {
    Filter(Adjusted(cart, id, change), Positive)
  }

  /** `removeService` */
  function RemoveFromCart(cart: seq<SaleItem>, id: string): (r: seq<SaleItem>)
    ensures |r| <= |cart|
    ensures !InCart(r, id)
  {
    Filter(cart, OtherThan(id))
  }

  /** `total`: the sum of price times quantity over the cart. */
  function CartTotal(cart: seq<SaleItem>): int
    decreases |cart|
  {
    if cart == [] then 0
    else CartTotal(cart[..|cart| - 1]) + cart[|cart| - 1].price * cart[|cart| - 1].quantity
  }

  lemma {:induction false} CartTotalAppend(a: seq<SaleItem>, b: seq<SaleItem>)
    ensures CartTotal(a + b) == CartTotal(a) + CartTotal(b)
    decreases |b|
  {
    if b == [] {
      assert a + b == a;
    } else {
      assert (a + b)[..|a + b| - 1] == a + b[..|b| - 1];
      CartTotalAppend(a, b[..|b| - 1]);
    }
  }

  /** Replacing one item changes the total by the difference of the two line amounts. */
  lemma CartTotalReplace(cart: seq<SaleItem>, k: nat, x: SaleItem)
    requires k < |cart|
    ensures CartTotal(cart[k := x])
         == CartTotal(cart) - cart[k].price * cart[k].quantity + x.price * x.quantity
  {
    assert cart == cart[..k] + [cart[k]] + cart[k + 1..];
    assert cart[k := x] == cart[..k] + [x] + cart[k + 1..];
    CartTotalAppend(cart[..k] + [cart[k]], cart[k + 1..]);
    CartTotalAppend(cart[..k], [cart[k]]);
    CartTotalAppend(cart[..k] + [x], cart[k + 1..]);
    CartTotalAppend(cart[..k], [x]);
    assert CartTotal([x]) == x.price * x.quantity by { assert [x][..0] == []; }
    assert CartTotal([cart[k]]) == cart[k].price * cart[k].quantity by { assert [cart[k]][..0] == []; }
  }

  /** Dropping one item lowers the total by its line amount. */
  lemma CartTotalDrop(cart: seq<SaleItem>, k: nat)
    requires k < |cart|
    ensures CartTotal(cart[..k] + cart[k + 1..]) == CartTotal(cart) - cart[k].price * cart[k].quantity
  {
    var pre, mid, post := cart[..k], [cart[k]], cart[k + 1..];
    assert cart == pre + mid + post;
    CartTotalAppend(pre + mid, post);
    CartTotalAppend(pre, mid);
    CartTotalAppend(pre, post);
    assert CartTotal(mid) == cart[k].price * cart[k].quantity by { assert mid[..0] == []; }
  }

  /** Changing the quantity of the item at `k` by `change` moves the total by
      `change` units of its price. */
  lemma CartTotalShift(cart: seq<SaleItem>, k: nat, change: int)
    requires k < |cart|
    ensures CartTotal(cart[k := cart[k].(quantity := cart[k].quantity + change)])
         == CartTotal(cart) + cart[k].price * change
  {
    var x := cart[k].(quantity := cart[k].quantity + change);
    CartTotalReplace(cart, k, x);
    assert x.price * x.quantity == cart[k].price * cart[k].quantity + cart[k].price * change;
  }

  /** With non-negative prices and quantities, the cart never totals below zero. */
  lemma {:induction false} CartTotalNonNegative(cart: seq<SaleItem>)
    requires forall i :: 0 <= i < |cart| ==> cart[i].price >= 0 && cart[i].quantity >= 0
    ensures CartTotal(cart) >= 0
    decreases |cart|
  {
    if cart != [] {
      var last := cart[|cart| - 1];
      assert last.price * last.quantity >= 0;
      CartTotalNonNegative(cart[..|cart| - 1]);
    }
  }

  /** The item with `id` sits at index `k` and nowhere else. */
  lemma OnlyAt(cart: seq<SaleItem>, id: string, k: nat)
    requires WellFormed(cart) && k < |cart| && cart[k].id == id
    ensures forall i :: 0 <= i < |cart| && i != k ==> cart[i].id != id
  {
  }

  /** Replacing an item by one with the same id and a quantity of at least 1 keeps
      the cart well formed. */
  lemma ReplaceKeepsWellFormed(cart: seq<SaleItem>, k: nat, x: SaleItem)
    requires WellFormed(cart) && k < |cart| && x.id == cart[k].id && x.quantity >= 1
    ensures WellFormed(cart[k := x])
  {
  }

  /** Dropping an item keeps the cart well formed. */
  lemma DropKeepsWellFormed(cart: seq<SaleItem>, k: nat)
    requires WellFormed(cart) && k < |cart|
    ensures WellFormed(cart[..k] + cart[k + 1..])
  {
    var r := cart[..k] + cart[k + 1..];
    forall i | 0 <= i < |r|
      ensures r[i] == cart[if i < k then i else i + 1]
    {
    }
  }

  /** In a well-formed cart the bump touches the item at `k` alone. */
  lemma BumpedAt(cart: seq<SaleItem>, id: string, k: nat)
    requires WellFormed(cart) && k < |cart| && cart[k].id == id
    ensures Bumped(cart, id) == cart[k := cart[k].(quantity := cart[k].quantity + 1)]
  {
    OnlyAt(cart, id, k);
  }

  /** `addService` on an id already in the cart (at `k`): only that item changes, its
      quantity goes up by one, and the total by its unit price. */
  lemma AddToCartExisting(cart: seq<SaleItem>, catalogue: seq<Service>, id: string, k: nat)
    requires WellFormed(cart) && k < |cart| && cart[k].id == id
    requires Find(catalogue, ServiceWithId(id)).Some?
    ensures var r := AddToCart(cart, catalogue, id);
      && r == cart[k := cart[k].(quantity := cart[k].quantity + 1)]
      && WellFormed(r)
      && CartTotal(r) == CartTotal(cart) + cart[k].price
  {
    assert InCart(cart, id);
    BumpedAt(cart, id, k);
    ReplaceKeepsWellFormed(cart, k, cart[k].(quantity := cart[k].quantity + 1));
    CartTotalShift(cart, k, 1);
  }

  /** `addService` on a catalogue id not yet in the cart appends one unit of that
      service, and the total grows by its price. */
  lemma AddToCartNew(cart: seq<SaleItem>, catalogue: seq<Service>, id: string)
    requires WellFormed(cart) && !InCart(cart, id)
    requires Find(catalogue, ServiceWithId(id)).Some?
    ensures var s := Find(catalogue, ServiceWithId(id)).value;
      var r := AddToCart(cart, catalogue, id);
      && r == cart + [SaleItem(id, s.name, s.price, 1)]
      && WellFormed(r)
      && CartTotal(r) == CartTotal(cart) + s.price
  {
    var s := Find(catalogue, ServiceWithId(id)).value;
    var item := SaleItem(id, s.name, s.price, 1);
    var r := cart + [item];
    assert forall i :: 0 <= i < |cart| ==> r[i] == cart[i];
    CartTotalAppend(cart, [item]);
    assert CartTotal([item]) == s.price by { assert [item][..0] == []; }
  }

  /** `addService` keeps the cart well formed, and an id missing from the catalogue
      leaves it as it was. */
  lemma AddToCartWellFormed(cart: seq<SaleItem>, catalogue: seq<Service>, id: string)
    requires WellFormed(cart)
    ensures WellFormed(AddToCart(cart, catalogue, id))
    ensures Find(catalogue, ServiceWithId(id)).None? ==> AddToCart(cart, catalogue, id) == cart
  {
    if Find(catalogue, ServiceWithId(id)).Some? {
      if InCart(cart, id) {
        var k :| 0 <= k < |cart| && cart[k].id == id;
        AddToCartExisting(cart, catalogue, id, k);
      } else {
        AddToCartNew(cart, catalogue, id);
      }
    }
  }

  /** The adjusted cart differs from the original at index `k` only. */
  lemma AdjustedSplit(cart: seq<SaleItem>, id: string, change: int, k: nat)
    requires k < |cart| && cart[k].id == id
    requires forall i :: 0 <= i < |cart| && i != k ==> cart[i].id != id
    ensures var adj := Adjusted(cart, id, change);
      adj[..k] == cart[..k] && adj[k + 1..] == cart[k + 1..]
  {
  }

  /** `updateServiceQuantity` on a well-formed cart holding `id` at `k`: the item gets
      quantity `q + change` if that is positive and is dropped otherwise; every other
      item stays, unchanged and in order. */
  lemma UpdateQuantityAt(cart: seq<SaleItem>, id: string, change: int, k: nat)
    requires WellFormed(cart) && k < |cart| && cart[k].id == id
    ensures var q := cart[k].quantity + change;
      UpdateQuantity(cart, id, change)
        == if q > 0 then cart[k := cart[k].(quantity := q)] else cart[..k] + cart[k + 1..]
  {
    OnlyAt(cart, id, k);
    var adj := Adjusted(cart, id, change);
    AdjustedSplit(cart, id, change, k);
    assert forall i :: 0 <= i < |adj| && i != k ==> adj[i] == cart[i];
    FilterAllBut(adj, k, Positive);
    var x := adj[k];
    if x.quantity > 0 {
      assert cart[k := x] == cart[..k] + [x] + cart[k + 1..];
    } else {
      assert cart[..k] + [] + cart[k + 1..] == cart[..k] + cart[k + 1..];
    }
  }

  /** `updateServiceQuantity` for an id not in a well-formed cart changes nothing. */
  lemma UpdateQuantityAbsent(cart: seq<SaleItem>, id: string, change: int)
    requires WellFormed(cart) && !InCart(cart, id)
    ensures UpdateQuantity(cart, id, change) == cart
  {
    assert Adjusted(cart, id, change) == cart;
    FilterKeepsAll(cart, Positive);
  }

  /** `updateServiceQuantity` that leaves the item at `k` with a positive quantity
      moves the total by the change in that line, and keeps the cart well formed. */
  lemma UpdateQuantityKept(cart: seq<SaleItem>, id: string, change: int, k: nat)
    requires WellFormed(cart) && k < |cart| && cart[k].id == id
    requires cart[k].quantity + change > 0
    ensures var r := UpdateQuantity(cart, id, change);
      && WellFormed(r)
      && CartTotal(r) == CartTotal(cart) + cart[k].price * change
  {
    var x := cart[k].(quantity := cart[k].quantity + change);
    UpdateQuantityAt(cart, id, change, k);
    assert UpdateQuantity(cart, id, change) == cart[k := x];
    CartTotalShift(cart, k, change);
    ReplaceKeepsWellFormed(cart, k, x);
  }

  /** `updateServiceQuantity` that takes the item at `k` to zero or below drops it: the
      total loses that line, and the cart stays well formed. */
  lemma UpdateQuantityDropped(cart: seq<SaleItem>, id: string, change: int, k: nat)
    requires WellFormed(cart) && k < |cart| && cart[k].id == id
    requires cart[k].quantity + change <= 0
    ensures var r := UpdateQuantity(cart, id, change);
      && WellFormed(r)
      && CartTotal(r) == CartTotal(cart) - cart[k].price * cart[k].quantity
  {
    UpdateQuantityAt(cart, id, change, k);
    CartTotalDrop(cart, k);
    DropKeepsWellFormed(cart, k);
  }

  /** `updateServiceQuantity` keeps every cart well formed. */
  lemma UpdateQuantityWellFormed(cart: seq<SaleItem>, id: string, change: int)
    requires WellFormed(cart)
    ensures WellFormed(UpdateQuantity(cart, id, change))
  {
    if InCart(cart, id) {
      var k :| 0 <= k < |cart| && cart[k].id == id;
      if cart[k].quantity + change > 0 {
        UpdateQuantityKept(cart, id, change, k);
      } else {
        UpdateQuantityDropped(cart, id, change, k);
      }
    } else {
      UpdateQuantityAbsent(cart, id, change);
    }
  }

  /** `removeService` on a well-formed cart holding `id` at `k`: exactly that item
      goes, the rest stay in order, and the total drops by that item's line amount. */
  lemma RemoveFromCartAt(cart: seq<SaleItem>, id: string, k: nat)
    requires WellFormed(cart) && k < |cart| && cart[k].id == id
    ensures var r := RemoveFromCart(cart, id);
      && r == cart[..k] + cart[k + 1..]
      && WellFormed(r)
      && CartTotal(r) == CartTotal(cart) - cart[k].price * cart[k].quantity
  {
    OnlyAt(cart, id, k);
    FilterAllBut(cart, k, OtherThan(id));
    assert cart[..k] + [] + cart[k + 1..] == cart[..k] + cart[k + 1..];
    CartTotalDrop(cart, k);
    DropKeepsWellFormed(cart, k);
  }

  /** `removeService` for an id not in the cart changes nothing. */
  lemma RemoveFromCartAbsent(cart: seq<SaleItem>, id: string)
    requires !InCart(cart, id)
    ensures RemoveFromCart(cart, id) == cart
  {
    FilterKeepsAll(cart, OtherThan(id));
  }

  /** `removeService` keeps every cart well formed. */
  lemma RemoveFromCartWellFormed(cart: seq<SaleItem>, id: string)
    requires WellFormed(cart)
    ensures WellFormed(RemoveFromCart(cart, id))
  {
    if InCart(cart, id) {
      var k :| 0 <= k < |cart| && cart[k].id == id;
      RemoveFromCartAt(cart, id, k);
    } else {
      RemoveFromCartAbsent(cart, id);
    }
  }

  /** The customer picker's search: name (lower-cased) or phone contains the term. */
  predicate PickerMatches(c: Customer, term: string, lower: string -> string) {
    Contains(lower(c.name), lower(term)) || Contains(c.phone, term)
  }

  function PickerCustomers(customers: seq<Customer>, term: string, lower: string -> string): (r: seq<Customer>)
    ensures |r| <= |customers|
    ensures forall i :: 0 <= i < |r| ==> PickerMatches(r[i], term, lower)
  {
    Filter(customers, (c: Customer) => PickerMatches(c, term, lower))
  }

  /** The picker lists a loaded customer exactly when its name or phone matches, and
      keeps the loaded order. */
  lemma PickerCustomersExact(customers: seq<Customer>, term: string, lower: string -> string, c: Customer)
    ensures c in PickerCustomers(customers, term, lower) <==> c in customers && PickerMatches(c, term, lower)
    ensures IsSubsequence(PickerCustomers(customers, term, lower), customers)
  {
    FilterMembers(customers, (x: Customer) => PickerMatches(x, term, lower), c);
    FilterIsSubsequence(customers, (x: Customer) => PickerMatches(x, term, lower));
  }

  /** The test of `customers.find(c => c.id === id)`. */
  function CustomerWithId(id: string): Customer -> bool {
    (c: Customer) => c.id == id
  }

  /** The validated form values (`saleSchema`). */
  datatype SaleFormData = SaleFormData(
    customerId: Option<string>,
    customerName: Option<string>,
    paymentMethod: PaymentMethod)

  /** `defaultValues`, which `reset()` restores. */
  const DefaultFormData := SaleFormData(None, None, Cash)

  /** `customerName`: with a customer id chosen, the name of that customer in the
      loaded list (none if it is not there); otherwise the typed name. */
  function SaleCustomerName(data: SaleFormData, customers: seq<Customer>): (r: Option<string>)
    ensures !IsNonEmpty(data.customerId) ==> r == data.customerName
    ensures IsNonEmpty(data.customerId) ==>
      (r.None? <==> forall i :: 0 <= i < |customers| ==> customers[i].id != data.customerId.value)
  {
    if IsNonEmpty(data.customerId) then
      match Find(customers, CustomerWithId(data.customerId.value))
      case Some(c) => Some(c.name)
      case None => None
    else data.customerName
  }

  /** The sale `onSubmit` builds from the form, the cart and the signed-in user. */
  function BuildSale(data: SaleFormData, cart: seq<SaleItem>, user: User, customers: seq<Customer>,
                     clock: Clock, suffix: string): (s: Sale)
    ensures StartsWith(s.id, "sale_")
    ensures s.services == cart && s.total == CartTotal(s.services)
    ensures s.customerId == data.customerId && s.paymentMethod == data.paymentMethod
    ensures s.customerName == SaleCustomerName(data, customers)
    ensures s.cashierId == user.id && s.createdAt == clock.iso
    ensures s.synced == Some(false)
  {
    var id := "sale_" + DecimalString(clock.millis) + "_" + suffix;
    assert id[..5] == "sale_";
    Sale(id, data.customerId, SaleCustomerName(data, customers), cart, CartTotal(cart),
         data.paymentMethod, user.id, clock.iso, Some(false))
  }

  /** The chosen customer's name is used when a customer id is set. */
  lemma SaleCustomerNameChosen(data: SaleFormData, customers: seq<Customer>, k: nat)
    requires IsNonEmpty(data.customerId)
    requires k < |customers| && customers[k].id == data.customerId.value
    requires forall i :: 0 <= i < k ==> customers[i].id != data.customerId.value
    ensures SaleCustomerName(data, customers) == Some(customers[k].name)
  {
    var found := Find(customers, CustomerWithId(data.customerId.value));
    assert CustomerWithId(data.customerId.value)(customers[k]);
    var j :| 0 <= j < |customers| && customers[j] == found.value
      && forall i :: 0 <= i < j ==> !CustomerWithId(data.customerId.value)(customers[i]);
  }

  datatype SubmitOutcome =
    | NoServices
    | NoUser
    | Saved(sale: Sale)
    | SaveFailed(sale: Sale, error: DbError)

  class SaleFormState {
    var customers: seq<Customer>
    var selectedServices: seq<SaleItem>
    var form: SaleFormData
    var showCustomerSearch: bool
    var customerSearch: string

    ghost predicate Valid()
      reads this
    {
      WellFormed(selectedServices)
    }

    constructor ()
      ensures Valid() && customers == [] && selectedServices == [] && form == DefaultFormData
      ensures !showCustomerSearch && customerSearch == ""
    {
      customers, selectedServices, form := [], [], DefaultFormData;
      showCustomerSearch, customerSearch := false, "";
    }

    /** `loadCustomers` on mount. */
    method LoadCustomers(db: CarWashDb)
      modifies this`customers, db`isOpen
      ensures db.isOpen && customers == KeyOrder.ValuesByKey(db.customers)
    {
      customers := db.GetCustomers();
    }

    method AddService(catalogue: seq<Service>, serviceId: string)
      requires Valid()
      modifies this`selectedServices
      ensures Valid()
      ensures selectedServices == AddToCart(old(selectedServices), catalogue, serviceId)
    {
      AddToCartWellFormed(selectedServices, catalogue, serviceId);
      selectedServices := AddToCart(selectedServices, catalogue, serviceId);
    }

    method UpdateServiceQuantity(serviceId: string, change: int)
      requires Valid()
      modifies this`selectedServices
      ensures Valid()
      ensures selectedServices == UpdateQuantity(old(selectedServices), serviceId, change)
    {
      UpdateQuantityWellFormed(selectedServices, serviceId, change);
      selectedServices := UpdateQuantity(selectedServices, serviceId, change);
    }

    method RemoveService(serviceId: string)
      requires Valid()
      modifies this`selectedServices
      ensures Valid()
      ensures selectedServices == RemoveFromCart(old(selectedServices), serviceId)
    {
      RemoveFromCartWellFormed(selectedServices, serviceId);
      selectedServices := RemoveFromCart(selectedServices, serviceId);
    }

    /** `onSubmit`: refuses an empty cart or a missing user without writing anything;
        otherwise stores the built sale with `addSale` and, when that succeeds, resets
        the form and empties the cart. When it fails the form keeps its state. `clock`
        is the instant the sale is built at, `writeClock` the later one at which the
        store stamps the queue entry. */
    method Submit(db: CarWashDb, user: Option<User>, clock: Clock, suffix: string, writeClock: Clock)
      returns (r: SubmitOutcome)
      requires Valid() && db.Valid()
      modifies this, db
      ensures Valid() && db.Valid()
      ensures old(selectedServices) == [] ==> r == NoServices && unchanged(this, db)
      ensures old(selectedServices) != [] && user.None? ==> r == NoUser && unchanged(this, db)
      ensures old(selectedServices) != [] && user.Some? ==>
        var sale := BuildSale(old(form), old(selectedServices), user.value, old(customers), clock, suffix);
        && db.customers == old(db.customers)
        && (sale.id in old(db.sales) ==>
              r == SaveFailed(sale, KeyExists(SalesStore))
              && db.sales == old(db.sales) && db.syncQueue == old(db.syncQueue))
        && (sale.id !in old(db.sales) ==>
              db.sales == old(db.sales)[sale.id := sale]
              && AddedEntry(old(db.syncQueue), db.syncQueue, NewEntry(SaleType, Create, SaleData(sale), writeClock),
                            if r.Saved? then Ok else Err(KeyExists(SyncQueueStore))))
        && (r.Saved? ==> r == Saved(sale) && selectedServices == [] && form == DefaultFormData
                         && !showCustomerSearch && customerSearch == "" && customers == old(customers))
        && (!r.Saved? ==> r.SaveFailed? && r.sale == sale && unchanged(this))
    {
      if selectedServices == [] {
        return NoServices;
      }
      if user.None? {
        return NoUser;
      }
      var sale := BuildSale(form, selectedServices, user.value, customers, clock, suffix);
      var written := db.AddSale(sale, writeClock);
      if written.Err? {
        return SaveFailed(sale, written.error);
      }
      form := DefaultFormData;
      selectedServices := [];
      showCustomerSearch := false;
      customerSearch := "";
      r := Saved(sale);
    }
  }
}
