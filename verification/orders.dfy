/**
 * The in-progress order, its four form fields, and the two field validators
 * shared by both application-state stores. The stores differ only in the
 * wording of the messages, so the validators take the messages as a value.
 */
module Orders {
  import opened Wrappers

  /** The settable order fields (`keyof IOrderForm`). */
  datatype FormField = Payment | Address | Email | Phone

  /**
   * `IOrder`. `payment` is `None` for JavaScript `null`, which only the
   * initial order of `AppData` holds; `total` is `None` for the same reason.
   */
  datatype Order = Order(
    payment: Option<string>,
    address: string,
    email: string,
    phone: string,
    items: seq<string>,
    total: Option<int>)

  /** A validation mapping: field name to a user-facing message. */
  type Errors = map<FormField, string>

  /** The message texts a store attaches to each missing field. */
  datatype Messages = Messages(payment: string, address: string, email: string, phone: string)

  /** Reads `order[f]`; `None` is `null`. */
  function Field(o: Order, f: FormField): Option<string>
  {
    match f
    case Payment => o.payment
    case Address => Some(o.address)
    case Email => Some(o.email)
    case Phone => Some(o.phone)
  }

  /** JavaScript truthiness of `order[f]`: `null` and `''` are both falsy. */
  predicate IsSet(o: Order, f: FormField)
  {
    Field(o, f).Some? && Field(o, f).value != ""
  }

  /** `order[f] = v`: the written field holds `v` and nothing else changes. */
  function WithField(o: Order, f: FormField, v: string): (r: Order)
    ensures Field(r, f) == Some(v)
    ensures forall g :: g != f ==> Field(r, g) == Field(o, g)
    ensures r.items == o.items && r.total == o.total
  {
    match f
    case Payment => o.(payment := Some(v))
    case Address => o.(address := v)
    case Email => o.(email := v)
    case Phone => o.(phone := v)
  }

  /**
   * The contact-step errors: a key for each of email and phone that is
   * empty, carrying that field's message, and no other key.
   */
  function ContactErrors(o: Order, m: Messages): (r: Errors)
    ensures Email in r <==> !IsSet(o, Email)
    ensures Phone in r <==> !IsSet(o, Phone)
    ensures Email in r ==> r[Email] == m.email
    ensures Phone in r ==> r[Phone] == m.phone
    ensures Payment !in r && Address !in r
    ensures r == map[] <==> IsSet(o, Email) && IsSet(o, Phone)
  {
    var onEmail: Errors := if o.email == "" then map[Email := m.email] else map[];
    if o.phone == "" then onEmail[Phone := m.phone] else onEmail
  }

  /**
   * The delivery-step errors: a key for each of payment (null or empty)
   * and address (empty) that is missing, carrying its message, and no other key.
   */
  function DeliveryErrors(o: Order, m: Messages): (r: Errors)
    ensures Payment in r <==> !IsSet(o, Payment)
    ensures Address in r <==> !IsSet(o, Address)
    ensures Payment in r ==> r[Payment] == m.payment
    ensures Address in r ==> r[Address] == m.address
    ensures Email !in r && Phone !in r
    ensures r == map[] <==> IsSet(o, Payment) && IsSet(o, Address)
  {
    var onPayment: Errors := if !IsSet(o, Payment) then map[Payment := m.payment] else map[];
    if o.address == "" then onPayment[Address := m.address] else onPayment
  }

  /**
   * The blank order template: every form field is the empty string (set,
   * but falsy), no items, total 0, so both steps report every field missing.
   */
  function EmptyOrder(): (r: Order)
    ensures forall f :: Field(r, f) == Some("")
    ensures r.items == [] && r.total == Some(0)
    ensures forall m :: DeliveryErrors(r, m).Keys == {Payment, Address}
    ensures forall m :: ContactErrors(r, m).Keys == {Email, Phone}
  {
    Order(Some(""), "", "", "", [], Some(0))
  }
}
