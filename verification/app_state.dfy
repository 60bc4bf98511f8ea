/**
 * `AppState`, the second store. It keeps the same data as `AppData` but
 * differs in two ways: the contact validator runs only once the delivery
 * validator has passed, and `remove` leaves the order's item ids alone
 * (`Selected` re-syncs them on request).
 */
module AppStateStore {
  import opened Wrappers
  import opened Products
  import opened Orders
  import opened Baskets
  import opened Events

  /** The messages `AppState` attaches to missing fields. */
  const AppStateMessages := Messages(
    "Необходимо указать способ оплаты",
    "Необходимо указать адрес",
    "Необходимо указать email",
    "Необходимо указать телефон")

  class AppState {
    const events: EventEmitter
    var catalog: seq<Product>
    var basket: seq<Product>
    var order: Order
    var formErrors: Errors

    constructor (events: EventEmitter)
      ensures this.events == events
      ensures catalog == [] && basket == [] && order == EmptyOrder() && formErrors == map[]
    {
      this.events := events;
      catalog := [];
      basket := [];
      order := EmptyOrder();
      formErrors := map[];
    }

    /** Number of basket lines: zero exactly when the basket is empty. */
    function Count(): (n: nat)
      reads this
      ensures n == 0 <==> basket == []
    {
      |basket|
    }

    /**
     * Sum of basket prices, a `null` price adding 0: zero for an empty
     * basket, and never negative when no price is.
     */
    function Total(): (t: int)
      reads this
      ensures basket == [] ==> t == 0
      ensures (forall i :: 0 <= i < |basket| ==> PriceValue(basket[i].price) >= 0) ==> t >= 0
    {
      SumPrices(basket)
    }

    /** Stores the given product objects as the catalog and emits `items:changed`. */
    method SetCatalog(items: seq<Product>)
      modifies this, events
      ensures catalog == items
      ensures basket == old(basket) && order == old(order) && formErrors == old(formErrors)
      ensures events.emitted == old(events.emitted) + [Event("items:changed", NoPayload)]
    {
      catalog := items;
      events.Emit("items:changed", NoPayload);
    }

    /** Appends `item` as the last line, duplicates included. */
    method Add(item: Product)
      modifies this
      ensures basket == old(basket) + [item]
      ensures catalog == old(catalog) && order == old(order) && formErrors == old(formErrors)
    {
      basket := basket + [item];
    }

    /** Drops every line carrying `id` and keeps the rest in order; the order's ids go stale. */
    method Remove(id: string)
      modifies this
      ensures basket == Without(old(basket), id)
      ensures catalog == old(catalog) && order == old(order) && formErrors == old(formErrors)
    {
      basket := Without(basket, id);
    }

    /** Copies the basket's ids, in basket order, into the order. */
    method Selected()
      modifies this
      ensures order == old(order).(items := Ids(basket))
      ensures basket == old(basket) && catalog == old(catalog) && formErrors == old(formErrors)
    {
      order := order.(items := Ids(basket));
    }

    /**
     * Writes one order field and runs the delivery validator; the contact
     * validator, and its event, follow only when the delivery mapping is
     * empty. `formErrors` ends as the last mapping computed.
     */
    method SetDataOrder(field: FormField, value: string)
      modifies this, events
      ensures order == WithField(old(order), field, value)
      ensures var delivery := DeliveryErrors(order, AppStateMessages);
        && formErrors == (if delivery == map[] then ContactErrors(order, AppStateMessages) else delivery)
        && events.emitted == old(events.emitted) + [Event("addressErrors:change", ErrorsPayload(delivery))]
             + (if delivery == map[]
                then [Event("contactsErrors:change", ErrorsPayload(ContactErrors(order, AppStateMessages)))]
                else [])
      ensures basket == old(basket) && catalog == old(catalog)
    {
      order := WithField(order, field, value);
      var addressOk := ValidateAddress();
      if !addressOk {
        return;
      }
      var contactsOk := ValidateContacts();
      if !contactsOk {
        return;
      }
    }

    /** Empties the basket; the order and the catalog are untouched. */
    method ResetBasket()
      modifies this
      ensures basket == []
      ensures catalog == old(catalog) && order == old(order) && formErrors == old(formErrors)
    {
      basket := [];
    }

    /** Replaces the order with the blank template. */
    method ResetDataOrder()
      modifies this
      ensures order == EmptyOrder()
      ensures basket == old(basket) && catalog == old(catalog) && formErrors == old(formErrors)
    {
      order := EmptyOrder();
    }

    /** Truncates the basket to length 0 and returns the new length. */
    method ResetCount() returns (n: int)
      modifies this
      ensures n == 0 && basket == []
      ensures catalog == old(catalog) && order == old(order) && formErrors == old(formErrors)
    {
      basket := [];
      n := |basket|;
    }

    /**
     * Clears `selected` on every catalog product, in place. The catalog
     * itself, the products' other fields and every other object are untouched.
     */
    method ResetSelected()
      modifies catalog
      ensures forall i :: 0 <= i < |catalog| ==> !catalog[i].selected
    {
      for i := 0 to |catalog|
        invariant forall j :: 0 <= j < i ==> !catalog[j].selected
      {
        catalog[i].selected := false;
      }
    }

    /**
     * Recomputes the delivery mapping, replaces `formErrors` with it, emits
     * `addressErrors:change`, and reports whether it is empty.
     */
    method ValidateAddress() returns (ok: bool)
      modifies this, events
      ensures formErrors == DeliveryErrors(order, AppStateMessages)
      ensures ok <==> formErrors == map[]
      ensures events.emitted == old(events.emitted) + [Event("addressErrors:change", ErrorsPayload(formErrors))]
      ensures basket == old(basket) && catalog == old(catalog) && order == old(order)
    {
      var errors: Errors := map[];
      if order.payment == None || order.payment == Some("") {
        errors := errors[Payment := AppStateMessages.payment];
      }
      if order.address == "" {
        errors := errors[Address := AppStateMessages.address];
      }
      formErrors := errors;
      events.Emit("addressErrors:change", ErrorsPayload(formErrors));
      ok := |errors| == 0;
    }

    /**
     * Recomputes the contact mapping, replaces `formErrors` with it, emits
     * `contactsErrors:change`, and reports whether it is empty.
     */
    method ValidateContacts() returns (ok: bool)
      modifies this, events
      ensures formErrors == ContactErrors(order, AppStateMessages)
      ensures ok <==> formErrors == map[]
      ensures events.emitted == old(events.emitted) + [Event("contactsErrors:change", ErrorsPayload(formErrors))]
      ensures basket == old(basket) && catalog == old(catalog) && order == old(order)
    {
      var errors: Errors := map[];
      if order.email == "" {
        errors := errors[Email := AppStateMessages.email];
      }
      if order.phone == "" {
        errors := errors[Phone := AppStateMessages.phone];
      }
      formErrors := errors;
      events.Emit("contactsErrors:change", ErrorsPayload(formErrors));
      ok := |errors| == 0;
    }
  }
}
