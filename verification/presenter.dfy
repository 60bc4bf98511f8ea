/**
 * The checkout controller of the entry file: the event handlers that drive
 * the `AppData` store and the form and basket view state they set. The bus
 * runs handlers synchronously, so a handler that emits an event another
 * handler listens to calls that handler directly after the emit.
 */
module Presenter {
  import opened Wrappers
  import opened Products
  import opened Orders
  import opened Baskets
  import opened Events
  import opened AppDataStore
  import opened FormViews

  /** How the order post ended: accepted with the server's total, or rejected. */
  datatype Submission = Accepted(total: int) | Rejected

  class Checkout {
    const events: EventEmitter
    const appData: AppData
    /** The basket view's price line. */
    var basketPrice: int
    /** The basket view's checkout button. */
    var basketButtonDisabled: bool
    /** The delivery (`order`) form's validity and error line. */
    var deliveryValid: bool
    var deliveryErrors: string
    /** The contacts form's validity and error line. */
    var contactsValid: bool
    var contactsErrors: string

    /** The store emits on the controller's bus. */
    predicate Wired()
    {
      appData.events == events
    }

    constructor (events: EventEmitter)
      ensures this.events == events && Wired() && fresh(appData)
      ensures appData.catalog == [] && appData.basket == [] && appData.order == InitialOrder()
    {
      this.events := events;
      appData := new AppData(events);
      basketPrice := 0;
      basketButtonDisabled := false;
      deliveryValid := false;
      deliveryErrors := "";
      contactsValid := false;
      contactsErrors := "";
    }

    /**
     * `item:addInBasket`: marks the product selected, appends it as the last
     * line and re-syncs the order's ids with the basket.
     */
    method OnAddInBasket(item: Product)
      modifies item, appData
      ensures item.selected
      ensures appData.basket == old(appData.basket) + [item]
      ensures appData.order == old(appData.order).(items := Ids(appData.basket))
      ensures appData.catalog == old(appData.catalog) && appData.formErrors == old(appData.formErrors)
    {
      item.selected := true;
      appData.Add(item);
      appData.SetCustomerData();
    }

    /**
     * `basket:open`: emits `modal:open`, shows the basket total and disables
     * the checkout button exactly when the basket is empty.
     */
    method OnBasketOpen()
      requires Wired()
      modifies this, events
      ensures basketPrice == appData.TotalPrice()
      ensures basketButtonDisabled <==> appData.basket == []
      ensures events.emitted == old(events.emitted) + [Event("modal:open", NoPayload)]
      ensures deliveryValid == old(deliveryValid) && deliveryErrors == old(deliveryErrors)
      ensures contactsValid == old(contactsValid) && contactsErrors == old(contactsErrors)
    {
      events.Emit("modal:open", NoPayload);
      basketPrice := appData.TotalPrice();
      basketButtonDisabled := |appData.basket| == 0;
    }

    /**
     * `item:remove`: unmarks the product, drops its id from the basket (the
     * store re-syncs the order's ids), updates the price, and re-opens the
     * basket view through `basket:open`.
     */
    method OnItemRemove(item: Product)
      requires Wired()
      modifies this, item, appData, events
      ensures !item.selected
      ensures appData.basket == Without(old(appData.basket), item.id)
      ensures !HasId(appData.basket, item.id)
      ensures appData.order == old(appData.order).(items := Ids(appData.basket))
      ensures appData.catalog == old(appData.catalog) && appData.formErrors == old(appData.formErrors)
      ensures basketPrice == appData.TotalPrice()
      ensures basketButtonDisabled <==> appData.basket == []
      ensures events.emitted
           == old(events.emitted) + [Event("basket:open", NoPayload), Event("modal:open", NoPayload)]
      ensures deliveryValid == old(deliveryValid) && deliveryErrors == old(deliveryErrors)
      ensures contactsValid == old(contactsValid) && contactsErrors == old(contactsErrors)
    {
      item.selected := false;
      appData.Remove(item.id);
      basketPrice := appData.TotalPrice();
      events.Emit("basket:open", NoPayload);
      OnBasketOpen();
    }

    /**
     * `order:submit`: stores the basket total in the order and shows the
     * contacts form blank and invalid; the basket is untouched.
     */
    method OnOrderSubmit()
      modifies this, appData
      ensures appData.order == old(appData.order).(total := Some(old(appData.TotalPrice())))
      ensures appData.basket == old(appData.basket) && appData.catalog == old(appData.catalog)
      ensures appData.formErrors == old(appData.formErrors)
      ensures !contactsValid && contactsErrors == ""
      ensures deliveryValid == old(deliveryValid) && deliveryErrors == old(deliveryErrors)
      ensures basketPrice == old(basketPrice) && basketButtonDisabled == old(basketButtonDisabled)
    {
      appData.order := appData.order.(total := Some(appData.TotalPrice()));
      contactsValid := false;
      contactsErrors := "";
    }

    /**
     * The outcome of `contacts:submit`: once the post is accepted, emits
     * `order:success` and resets basket and order; once it is rejected,
     * nothing changes.
     */
    method OnContactsSubmitted(outcome: Submission)
      modifies appData, events
      ensures outcome.Accepted? ==> appData.basket == [] && appData.order == EmptyOrder()
      ensures outcome.Accepted? ==>
        events.emitted == old(events.emitted) + [Event("order:success", SuccessPayload(outcome.total))]
      ensures outcome.Rejected? ==>
        appData.basket == old(appData.basket) && appData.order == old(appData.order)
        && events.emitted == old(events.emitted)
      ensures appData.catalog == old(appData.catalog) && appData.formErrors == old(appData.formErrors)
    {
      if outcome.Accepted? {
        events.Emit("order:success", SuccessPayload(outcome.total));
        appData.ResetBasket();
        appData.ResetOrder();
      }
    }

    /** `orderErrors:change`: the delivery form's validity and error line. */
    method OnOrderErrorsChange(errors: Errors)
      modifies this
      ensures deliveryValid == FormValid(errors, Address, Payment)
      ensures deliveryErrors == ErrorsText(errors, Address, Payment)
      ensures deliveryErrors == "" <==> deliveryValid
      ensures contactsValid == old(contactsValid) && contactsErrors == old(contactsErrors)
      ensures basketPrice == old(basketPrice) && basketButtonDisabled == old(basketButtonDisabled)
    {
      deliveryValid := !Flagged(errors, Address) && !Flagged(errors, Payment);
      deliveryErrors := ErrorsText(errors, Address, Payment);
    }

    /** `contactsErrors:change`: the contacts form's validity and error line. */
    method OnContactsErrorsChange(errors: Errors)
      modifies this
      ensures contactsValid == FormValid(errors, Email, Phone)
      ensures contactsErrors == ErrorsText(errors, Email, Phone)
      ensures contactsErrors == "" <==> contactsValid
      ensures deliveryValid == old(deliveryValid) && deliveryErrors == old(deliveryErrors)
      ensures basketPrice == old(basketPrice) && basketButtonDisabled == old(basketButtonDisabled)
    {
      contactsValid := !Flagged(errors, Email) && !Flagged(errors, Phone);
      contactsErrors := ErrorsText(errors, Email, Phone);
    }

    /**
     * `order:change`: forwards the field and value to the store unchanged.
     * The store's two errors events reach the form handlers, so afterwards
     * each form is valid exactly when its two fields are set.
     */
    method OnOrderChange(field: FormField, value: string)
      requires Wired()
      modifies this, appData, events
      ensures appData.order == WithField(old(appData.order), field, value)
      ensures appData.basket == old(appData.basket) && appData.catalog == old(appData.catalog)
      ensures events.emitted == old(events.emitted) + FieldUpdateEvents(appData.order)
      ensures appData.formErrors == DeliveryErrors(appData.order, AppDataMessages)
      ensures basketPrice == old(basketPrice) && basketButtonDisabled == old(basketButtonDisabled)
      ensures deliveryValid <==> IsSet(appData.order, Address) && IsSet(appData.order, Payment)
      ensures contactsValid <==> IsSet(appData.order, Email) && IsSet(appData.order, Phone)
      ensures deliveryErrors == ErrorsText(DeliveryErrors(appData.order, AppDataMessages), Address, Payment)
      ensures contactsErrors == ErrorsText(ContactErrors(appData.order, AppDataMessages), Email, Phone)
    {
      appData.SetOrderField(field, value);
      OnContactsErrorsChange(ContactErrors(appData.order, AppDataMessages));
      OnOrderErrorsChange(DeliveryErrors(appData.order, AppDataMessages));
      DeliveryFormState(appData.order, AppDataMessages);
      ContactsFormState(appData.order, AppDataMessages);
    }
  }
}
