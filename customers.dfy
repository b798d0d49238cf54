/** The customers page: the search over the loaded list, the record built from the
    form for an edit or for a new customer, and the save that writes it to the store
    and reloads the list. `toLowerCase`, the clock and the random id suffix are
    parameters. */
module Customers {
  import opened Types
  import opened Seqs
  import opened Db
  import opened CustomerForm
  import SaleForm

  /** The page's search: the lower-cased name, the phone, or a non-empty email
      (lower-cased) contains the term. */
  predicate Matches(c: Customer, term: string, lower: string -> string) {
    || Contains(lower(c.name), lower(term))
    || Contains(c.phone, term)
    || (IsNonEmpty(c.email) && Contains(lower(c.email.value), lower(term)))
  }

  function MatchesTerm(term: string, lower: string -> string): Customer -> bool {
    (c: Customer) => Matches(c, term, lower)
  }

  /** `filteredCustomers` */
  function FilterCustomers(customers: seq<Customer>, term: string, lower: string -> string): (r: seq<Customer>)
    ensures |r| <= |customers|
    ensures forall i :: 0 <= i < |r| ==> Matches(r[i], term, lower)
  {
    Filter(customers, MatchesTerm(term, lower))
  }

  /** The search keeps a customer of the list exactly when one of its three fields
      matches, and keeps the list's order. */
  lemma FilterCustomersExact(customers: seq<Customer>, term: string, lower: string -> string, c: Customer)
    ensures c in FilterCustomers(customers, term, lower) <==> c in customers && Matches(c, term, lower)
    ensures IsSubsequence(FilterCustomers(customers, term, lower), customers)
  {
    FilterMembers(customers, MatchesTerm(term, lower), c);
    FilterIsSubsequence(customers, MatchesTerm(term, lower));
  }

  /** An empty search term keeps every customer, since every string contains the
      empty one: the phone alone already matches. */
  lemma EmptyTermKeepsAll(customers: seq<Customer>, lower: string -> string)
    ensures FilterCustomers(customers, "", lower) == customers
  {
    forall i | 0 <= i < |customers|
      ensures Matches(customers[i], "", lower)
    {
      ContainsEmpty(customers[i].phone);
    }
    FilterKeepsAll(customers, MatchesTerm("", lower));
  }

  /** Whoever the sale form's customer picker finds for a term, this page's search
      finds too: the page only adds the email as a third field. */
  lemma PickerFindsFewer(customers: seq<Customer>, term: string, lower: string -> string, c: Customer)
    requires c in SaleForm.PickerCustomers(customers, term, lower)
    ensures c in FilterCustomers(customers, term, lower)
  {
    FilterMembers(customers, (x: Customer) => SaleForm.PickerMatches(x, term, lower), c);
    FilterMembers(customers, MatchesTerm(term, lower), c);
  }

  /** `{...editingCustomer, ...customerData, updatedAt: now, synced: false}`: the form's
      fields overwrite the old ones (an absent email clears the stored one). */
  function EditedCustomer(editing: Customer, input: CustomerInput, now: string): (c: Customer)
    ensures c.id == editing.id && c.createdAt == editing.createdAt
    ensures c.name == input.name && c.phone == input.phone && c.email == input.email
    ensures c.updatedAt == now && c.synced == Some(false)
  {
    editing.(name := input.name, phone := input.phone, email := input.email,
             updatedAt := now, synced := Some(false))
  }

  /** The new record: id `customer_<Date.now()>_<suffix>`, both timestamps `now`,
      not synced. */
  function NewCustomer(input: CustomerInput, clock: Clock, suffix: string): (c: Customer)
    ensures StartsWith(c.id, "customer_")
    ensures c.name == input.name && c.phone == input.phone && c.email == input.email
    ensures c.createdAt == clock.iso && c.updatedAt == clock.iso && c.synced == Some(false)
  {
    var id := "customer_" + DecimalString(clock.millis) + "_" + suffix;
    assert id[..9] == "customer_";
    Customer(id, input.name, input.phone, input.email, clock.iso, clock.iso, Some(false))
  }

  /** Saving an edit form submitted untouched changes only the timestamp and the synced
      flag of the customer, except that an empty stored email becomes absent. */
  lemma UntouchedEditKeepsCustomer(c: Customer, isEmail: string -> bool, now: string)
    requires Accepted(DefaultValues(Some(c)), isEmail)
    ensures Submit(DefaultValues(Some(c)), isEmail).Some?
    ensures EditedCustomer(c, Submit(DefaultValues(Some(c)), isEmail).value, now)
         == c.(email := if IsNonEmpty(c.email) then c.email else None, updatedAt := now, synced := Some(false))
  {
    assert EmailAccepted(c.email, isEmail);
    DefaultsRoundTrip(c, isEmail);
  }

  /** The stores after `handleSaveCustomer` wrote the form's values: an edit is
      upserted with an `update` entry tried; a new customer is inserted with a `create`
      entry tried, or, when its id is taken, nothing changes. Either record is
      unsynced, so the entry is always tried. */
  ghost predicate CustomerWritten(editing: Option<Customer>, input: CustomerInput, clock: Clock,
                                  suffix: string, writeClock: Clock,
                                  customers0: map<string, Customer>, queue0: map<string, QueueEntry>,
                                  customers: map<string, Customer>, queue: map<string, QueueEntry>,
                                  r: Outcome)
  {
    if editing.Some? then
      var c := EditedCustomer(editing.value, input, clock.iso);
      && customers == customers0[c.id := c]
      && AddedEntry(queue0, queue, NewEntry(CustomerType, Update, CustomerData(c), writeClock), r)
    else
      var c := NewCustomer(input, clock, suffix);
      && (c.id in customers0 ==>
            r == Err(KeyExists(CustomersStore)) && customers == customers0 && queue == queue0)
      && (c.id !in customers0 ==>
            customers == customers0[c.id := c]
            && AddedEntry(queue0, queue, NewEntry(CustomerType, Create, CustomerData(c), writeClock), r))
  }

  class CustomersPage {
    var customers: seq<Customer>
    var searchTerm: string
    var isFormOpen: bool
    var editingCustomer: Option<Customer>

    constructor ()
      ensures customers == [] && searchTerm == "" && !isFormOpen && editingCustomer.None?
    {
      customers, searchTerm, isFormOpen, editingCustomer := [], "", false, None;
    }

    /** `loadCustomers` */
    method LoadCustomers(db: CarWashDb)
      modifies this`customers, db`isOpen
      ensures db.isOpen && customers == KeyOrder.ValuesByKey(db.customers)
    {
      customers := db.GetCustomers();
    }

    method OpenEditForm(c: Customer)
      modifies this`editingCustomer, this`isFormOpen
      ensures editingCustomer == Some(c) && isFormOpen
    {
      editingCustomer, isFormOpen := Some(c), true;
    }

    method OpenNewForm()
      modifies this`editingCustomer, this`isFormOpen
      ensures editingCustomer.None? && isFormOpen
    {
      editingCustomer, isFormOpen := None, true;
    }

    /** The form's cancel button. */
    method CancelForm()
      modifies this`editingCustomer, this`isFormOpen
      ensures editingCustomer.None? && !isFormOpen
    {
      editingCustomer, isFormOpen := None, false;
    }

    /** The store write of `handleSaveCustomer`: an edit goes through `updateCustomer`,
        a new customer through `addCustomer`. `clock` is the instant the record is built at,
        `writeClock` the later one the store stamps the queue entry with. */
    method WriteCustomer(db: CarWashDb, input: CustomerInput, clock: Clock, suffix: string,
                         writeClock: Clock)
      returns (r: Outcome)
      requires db.Valid()
      modifies db
      ensures db.Valid() && db.isOpen && db.sales == old(db.sales)
      ensures CustomerWritten(editingCustomer, input, clock, suffix, writeClock, old(db.customers),
                              old(db.syncQueue), db.customers, db.syncQueue, r)
    {
      if editingCustomer.Some? {
        var c := EditedCustomer(editingCustomer.value, input, clock.iso);
        r := db.UpdateCustomer(c, writeClock);
      } else {
        var c := NewCustomer(input, clock, suffix);
        r := db.AddCustomer(c, writeClock);
      }
    }

    /** `handleSaveCustomer`: the write above; when the store reports no failure the
        list is reloaded and the form closed, and on a failure the page keeps its
        state. */
    method HandleSaveCustomer(db: CarWashDb, input: CustomerInput, clock: Clock, suffix: string,
                              writeClock: Clock)
      returns (r: Outcome)
      requires db.Valid()
      modifies this, db
      ensures db.Valid() && db.sales == old(db.sales)
      ensures CustomerWritten(old(editingCustomer), input, clock, suffix, writeClock, old(db.customers),
                              old(db.syncQueue), db.customers, db.syncQueue, r)
      ensures r.Ok? ==>
        customers == KeyOrder.ValuesByKey(db.customers) && !isFormOpen && editingCustomer.None?
        && searchTerm == old(searchTerm)
      ensures r.Err? ==> unchanged(this)
    {
      ghost var editing := editingCustomer;
      r := WriteCustomer(db, input, clock, suffix, writeClock);
      assert editingCustomer == editing;
      ghost var customers1, queue1 := db.customers, db.syncQueue;
      if r.Err? {
        return;
      }
      LoadCustomers(db);
      assert db.customers == customers1 && db.syncQueue == queue1;
      isFormOpen := false;
      editingCustomer := None;
    }
  }
}
