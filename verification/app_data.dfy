/**
 * `AppData`, the application-state store the storefront actually runs:
 * catalog, basket, in-progress order and the last validation mapping.
 * Both validators run on every field update, and `remove` re-syncs the
 * order's item ids.
 */
module AppDataStore {
  import opened Wrappers
  import opened Products
  import opened Orders
  import opened Baskets
  import opened Events

  /** The messages `AppData` attaches to missing fields. */
  const AppDataMessages := Messages(
    "Укажите способ оплаты",
    "Укажите адрес доставки",
    "Укажите ваш Email",
    "Укажите ваш телефон")

  /** The order `AppData` starts with: payment and total are still `null`. */
  function InitialOrder(): Order
  {
    Order(None, "", "", "", [], None)
  }

  /**
   * What `setOrderField` emits for the order `o` it leaves behind: the
   * contact errors, `contacts:ready` when they are empty, the delivery
   * errors, `order:ready` when those are empty.
   */
  function FieldUpdateEvents(o: Order): seq<Event>
  {
    var contact := ContactErrors(o, AppDataMessages);
    var delivery := DeliveryErrors(o, AppDataMessages);
    [Event("contactsErrors:change", ErrorsPayload(contact))]
    + (if contact == map[] then [Event("contacts:ready", OrderPayload(o))] else [])
    + [Event("orderErrors:change", ErrorsPayload(delivery))]
    + (if delivery == map[] then [Event("order:ready", OrderPayload(o))] else [])
  }

  class AppData {
    const events: EventEmitter
    var catalog: seq<Product>
    var basket: seq<Product>
    var order: Order
    var formErrors: Errors

    constructor (events: EventEmitter)
      ensures this.events == events
      ensures catalog == [] && basket == [] && order == InitialOrder() && formErrors == map[]
    {
      this.events := events;
      catalog := [];
      basket := [];
      order := InitialOrder();
      formErrors := map[];
    }

    /** Number of basket lines: zero exactly when the basket is empty. */
    function Count(): (n: nat)
      reads this
      ensures n == 0 <==> basket == []
    {
      |basket|
    }

    /**
     * Sum of basket prices, a `null` price adding 0: zero for an empty
     * basket, and never negative when no price is.
     */
    function TotalPrice(): (t: int)
      reads this
      ensures basket == [] ==> t == 0
      ensures (forall i :: 0 <= i < |basket| ==> PriceValue(basket[i].price) >= 0) ==> t >= 0
    {
      SumPrices(basket)
    }

    /**
     * Replaces the catalog with one fresh, distinct product object per
     * record, in order, and emits `items:render` with it. Nothing else changes.
     */
    method SetCatalog(items: seq<ProductInfo>)
      modifies this, events
      ensures |catalog| == |items|
      ensures forall i :: 0 <= i < |items| ==> fresh(catalog[i]) && catalog[i].Info() == items[i]
      ensures forall i, j :: 0 <= i < j < |catalog| ==> catalog[i] != catalog[j]
      ensures basket == old(basket) && order == old(order) && formErrors == old(formErrors)
      ensures events.emitted == old(events.emitted) + [Event("items:render", CatalogPayload(catalog))]
    {
      var products: seq<Product> := [];
      var i := 0;
      while i < |items|
        invariant 0 <= i <= |items| && |products| == i
        invariant forall j :: 0 <= j < i ==> fresh(products[j]) && products[j].Info() == items[j]
        invariant forall j, k :: 0 <= j < k < i ==> products[j] != products[k]
        invariant unchanged(this, events)
      {
        var p := new Product(items[i]);
        products := products + [p];
        i := i + 1;
      }
      catalog := products;
      events.Emit("items:render", CatalogPayload(catalog));
    }

    /** Appends `item` as the last line, duplicates included; the order is untouched. */
    method Add(item: Product)
      modifies this
      ensures basket == old(basket) + [item]
      ensures catalog == old(catalog) && order == old(order) && formErrors == old(formErrors)
    {
      basket := basket + [item];
    }

    /**
     * Drops every line carrying `id`, keeps the rest in order, and then
     * re-syncs the order's item ids with the new basket.
     */
    method Remove(id: string)
      modifies this
      ensures basket == Without(old(basket), id)
      ensures order == old(order).(items := Ids(basket))
      ensures catalog == old(catalog) && formErrors == old(formErrors)
    {
      basket := Without(basket, id);
      SetCustomerData();
    }

    /** Copies the basket's ids, in basket order, into the order. */
    method SetCustomerData()
      modifies this
      ensures order == old(order).(items := Ids(basket))
      ensures basket == old(basket) && catalog == old(catalog) && formErrors == old(formErrors)
    {
      order := order.(items := Ids(basket));
    }

    /** Empties the basket; the order and the catalog are untouched. */
    method ResetBasket()
      modifies this
      ensures basket == []
      ensures catalog == old(catalog) && order == old(order) && formErrors == old(formErrors)
    {
      basket := [];
    }

    /**
     * Writes one order field, then runs the contact validator and the
     * delivery validator, each unconditionally. The delivery mapping is the
     * last one written, so it is what `formErrors` holds afterwards.
     */
    method SetOrderField(field: FormField, value: string)
      modifies this, events
      ensures order == WithField(old(order), field, value)
      ensures formErrors == DeliveryErrors(order, AppDataMessages)
      ensures events.emitted == old(events.emitted) + FieldUpdateEvents(order)
      ensures basket == old(basket) && catalog == old(catalog)
    {
      order := WithField(order, field, value);
      var contactsOk := ValidateContacts();
      if contactsOk {
        events.Emit("contacts:ready", OrderPayload(order));
      }
      var deliveryOk := ValidateOrder();
      if deliveryOk {
        events.Emit("order:ready", OrderPayload(order));
      }
    }

    /**
     * Recomputes the contact mapping, replaces `formErrors` with it, emits
     * `contactsErrors:change`, and reports whether it is empty.
     */
    method ValidateContacts() returns (ok: bool)
      modifies this, events
      ensures formErrors == ContactErrors(order, AppDataMessages)
      ensures ok <==> formErrors == map[]
      ensures events.emitted == old(events.emitted) + [Event("contactsErrors:change", ErrorsPayload(formErrors))]
      ensures basket == old(basket) && catalog == old(catalog) && order == old(order)
    {
      var errors: Errors := map[];
      if order.email == "" {
        errors := errors[Email := AppDataMessages.email];
      }
      if order.phone == "" {
        errors := errors[Phone := AppDataMessages.phone];
      }
      formErrors := errors;
      events.Emit("contactsErrors:change", ErrorsPayload(formErrors));
      ok := |errors| == 0;
    }

    /**
     * Recomputes the delivery mapping, replaces `formErrors` with it, emits
     * `orderErrors:change`, and reports whether it is empty.
     */
    method ValidateOrder() returns (ok: bool)
      modifies this, events
      ensures formErrors == DeliveryErrors(order, AppDataMessages)
      ensures ok <==> formErrors == map[]
      ensures events.emitted == old(events.emitted) + [Event("orderErrors:change", ErrorsPayload(formErrors))]
      ensures basket == old(basket) && catalog == old(catalog) && order == old(order)
    {
      var errors: Errors := map[];
      if order.payment == None || order.payment == Some("") {
        errors := errors[Payment := AppDataMessages.payment];
      }
      if order.address == "" {
        errors := errors[Address := AppDataMessages.address];
      }
      formErrors := errors;
      events.Emit("orderErrors:change", ErrorsPayload(formErrors));
      ok := |errors| == 0;
    }

    /** Replaces the order with the blank template (payment `''`, total 0). */
    method ResetOrder()
      modifies this
      ensures order == EmptyOrder()
      ensures basket == old(basket) && catalog == old(catalog) && formErrors == old(formErrors)
    {
      order := EmptyOrder();
    }
  }

  /**
   * The round trip on the store object: adding a product whose id is not in
   * the basket and then removing that id restores the count and the total.
   */
  method AddThenRemove(store: AppData, p: Product)
    requires !HasId(store.basket, p.id)
    modifies store
    ensures store.basket == old(store.basket)
    ensures store.Count() == old(store.Count()) && store.TotalPrice() == old(store.TotalPrice())
  {
    store.Add(p);
    store.Remove(p.id);
    AddRemoveRoundTrip(old(store.basket), p);
  }
}
