/** The customer form: its default values, the schema that validates what was
    typed, and the mapping of the accepted values onto the fields a customer record
    takes from the form. The email check of the schema library is a parameter. */
module CustomerForm {
  import opened Types

  /** What the three inputs hold. The schema declares `email` optional, so it may also
      be absent. */
  datatype FormValues = FormValues(name: string, phone: string, email: Option<string>)

  /** The fields the form hands to its owner (`Omit<Customer, 'id' | 'createdAt' | 'updatedAt'>`
      as filled in by `onSubmit`). */
  datatype CustomerInput = CustomerInput(name: string, phone: string, email: Option<string>)

  /** `customer?.field || ''` for a text field. */
  function OrEmpty(s: Option<string>): (r: string)
    ensures s.Some? ==> r == s.value
    ensures s.None? ==> r == ""
  {
    if IsNonEmpty(s) then s.value else ""
  }

  /** `defaultValues`: the edited customer's name, phone and email, each replaced by the
      empty string when there is no customer or no such value. */
  function DefaultValues(customer: Option<Customer>): (v: FormValues)
    ensures customer.None? ==> v == FormValues("", "", Some(""))
    ensures customer.Some? ==>
      v.name == customer.value.name && v.phone == customer.value.phone
      && v.email == Some(OrEmpty(customer.value.email))
  {
    match customer
    case None => FormValues(OrEmpty(None), OrEmpty(None), Some(OrEmpty(None)))
    case Some(c) => FormValues(OrEmpty(Some(c.name)), OrEmpty(Some(c.phone)), Some(OrEmpty(c.email)))
  }

  /** `name: z.string().min(2)` */
  predicate NameAccepted(name: string) {
    |name| >= 2
  }

  /** `phone: z.string().min(10)`: a length rule only, with no check of the characters. */
  predicate PhoneAccepted(phone: string) {
    |phone| >= 10
  }

  /** `email: z.string().email().optional().or(z.literal(''))`, with the library's
      address check given as `isEmail`. */
  predicate EmailAccepted(email: Option<string>, isEmail: string -> bool) {
    match email
    case None => true
    case Some(e) => e == "" || isEmail(e)
  }

  predicate Accepted(v: FormValues, isEmail: string -> bool) {
    NameAccepted(v.name) && PhoneAccepted(v.phone) && EmailAccepted(v.email, isEmail)
  }

  /** `onSubmit`: name and phone pass through; an empty or absent email becomes absent. */
  function ToInput(v: FormValues): (r: CustomerInput)
    ensures r.name == v.name && r.phone == v.phone
    ensures r.email.None? <==> !IsNonEmpty(v.email)
    ensures r.email.Some? ==> r.email == v.email && r.email.value != ""
  {
    CustomerInput(v.name, v.phone, if IsNonEmpty(v.email) then v.email else None)
  }

  /** `handleSubmit(onSubmit)`: the owner is called only with values the schema accepts. */
  function Submit(v: FormValues, isEmail: string -> bool): (r: Option<CustomerInput>)
    ensures r.Some? <==> |v.name| >= 2 && |v.phone| >= 10 && (v.email.Some? && v.email.value != "" ==> isEmail(v.email.value))
    ensures r.Some? ==> r.value == ToInput(v)
  {
    if Accepted(v, isEmail) then Some(ToInput(v)) else None
  }

  /** Opening the form on a customer whose fields the schema accepts and submitting it
      untouched hands back that customer's name, phone and email, with an empty email
      turned into an absent one. */
  lemma DefaultsRoundTrip(c: Customer, isEmail: string -> bool)
    requires NameAccepted(c.name) && PhoneAccepted(c.phone)
    requires EmailAccepted(c.email, isEmail)
    ensures var r := Submit(DefaultValues(Some(c)), isEmail);
      && r.Some?
      && r.value.name == c.name && r.value.phone == c.phone
      && r.value.email == (if IsNonEmpty(c.email) then c.email else None)
  {
    var v := DefaultValues(Some(c));
    assert v.email == Some(OrEmpty(c.email));
    assert EmailAccepted(v.email, isEmail);
  }

  /** A blank form (no customer) is never accepted: the name is too short. */
  lemma BlankFormRejected(isEmail: string -> bool)
    ensures Submit(DefaultValues(None), isEmail).None?
  {
  }
}
