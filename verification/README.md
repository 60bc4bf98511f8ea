# Storefront state store and checkout controller, in Dafny

This project models the state/validation core of a storefront single-page application. The core has three parts:

- **`AppData`.** The application-state store that the entry file wires up. It owns the catalog, the basket, the in-progress order and the last validation mapping.
- **`AppState`.** A near-duplicate store. It validates in a different order and handles `remove` differently.
- **Checkout controller.** The event handlers of the entry file that drive `AppData` and set the basket and form view state.

The modules are:

- `Wrappers`: `Option`, used for JavaScript `null`.
- `Products`: the product record (`ProductInfo`) and the product object (`Product`). A product's data fields are constants. Its `selected` flag is mutable, because the controller and `AppState` flip it on the very object that the catalog and the basket share.
- `Orders`: the order, its four form fields, `order[field] = value`, the two field validators and the blank order template. Both stores use the same validation rule and differ only in the message texts, so the validators take the messages as a value.
- `Baskets`: the basket folds. These are the id list, the price sum (a `null` price adds 0, as `a + null` does in JavaScript) and the by-id filter used by `remove`, together with their lemmas. The lemmas include the add/remove round trip and the way it fails when `add` is given a duplicate.
- `Events`: the event bus seen from the emitting side. Every `emit` appends `(name, payload)` to a trace.
- `AppDataStore`: the class `AppData`, one method per store operation, each stating the new state and the events appended.
- `AppStateStore`: the class `AppState`, the same way.
- `FormViews`: the validity flag and the `'; '`-joined error line that the controller derives from an errors mapping, with lemmas tying them to the order's fields.
- `Presenter`: the class `Checkout`, one method per modelled event handler of the entry file.

Notes on the code's behaviour, which the model follows:

- The validators test only emptiness (JavaScript falsiness). Whitespace-only values are accepted.
- There is no `basket-changed` event.
- The controller, not the store, marks products selected and re-syncs the order's ids after `add`.
- `add` does not deduplicate.

## Model

| member | source | states |
|---|---|---|
| Products.Product.constructor | src/components/Product.ts:8-16 | a product object holds exactly the fields of the record it was built from |
| Orders.WithField | src/components/AppData.ts:62 | `order[field] = value` makes that field `value` and leaves every other field, the item ids and the total unchanged |
| Orders.ContactErrors | src/components/AppData.ts:74-83 | the contact mapping has an email key iff email is empty and a phone key iff phone is empty, each carrying its message, no other key; it is empty iff both are set |
| Orders.DeliveryErrors | src/components/AppData.ts:91-99 | the delivery mapping has a payment key iff payment is null or empty and an address key iff address is empty, each carrying its message, no other key; it is empty iff both are set |
| Orders.EmptyOrder | src/components/AppState.ts:17-26 | the blank order has every form field `''`, no items, total 0, and fails both validators on every field |
| Baskets.SumPrices | src/components/AppData.ts:47 | the left fold of prices treats a null price as 0, so a basket of null prices totals 0, and a basket of non-negative prices never totals below 0 |
| Baskets.Ids | src/components/AppData.ts:52 | the id list has one entry per basket line and contains exactly the ids that some line carries |
| Events.EventEmitter.Emit | src/components/AppData.ts:85 | each emit appends its event name and payload to the end of the trace and changes nothing else |
| Baskets.Without | src/components/AppData.ts:36 | the filter keeps exactly the lines whose id differs from the removed id, so no line with that id survives |
| Baskets.WithoutConcat | src/components/AppState.ts:35 | the filter distributes over concatenation, so the survivors keep their relative order |
| Baskets.WithoutAbsent | src/components/AppData.ts:35-36 | removing an id that no line carries leaves the basket unchanged |
| Baskets.WithoutPresent | src/components/AppData.ts:35-36 | removing an id that some line carries makes the basket strictly shorter |
| Baskets.SumPricesConcat | src/components/AppData.ts:46-48 | the basket total of a concatenation is the sum of the two totals |
| Baskets.AddRemoveRoundTrip | src/components/AppData.ts:30-48 | if no line has `p.id`, appending `p` and then removing `p.id` gives back the same basket, so the same count and total |
| Baskets.AddRemoveWithDuplicate | src/components/AppData.ts:30-36 | if a line already has `p.id`, appending `p` and then removing `p.id` also drops the earlier line, so the count ends below where it started |
| AppDataStore.AppData.constructor | src/components/AppData.ts:10-21 | the store starts with an empty basket, no errors, and an order whose payment and total are null and whose strings are empty |
| AppDataStore.AppData.Count | src/components/AppData.ts:41-43 | the count is zero exactly when the basket is empty |
| AppDataStore.AppData.TotalPrice | src/components/AppData.ts:46-48 | the total is 0 for an empty basket and never negative when no price is |
| AppDataStore.AppData.SetCatalog | src/components/AppData.ts:24-27 | the catalog becomes one fresh product object per record, in order, no two entries the same object; `items:render` is emitted with it; nothing else changes |
| AppDataStore.AppData.Add | src/components/AppData.ts:30-32 | the item is appended as the last line (no deduplication); the order and everything else are unchanged |
| AppDataStore.AppData.Remove | src/components/AppData.ts:35-38 | the basket becomes the by-id filter of the old one, and the order's items become the remaining ids in basket order |
| AppDataStore.AppData.SetCustomerData | src/components/AppData.ts:51-53 | the order's items become the basket ids in basket order; nothing else changes |
| AppDataStore.AppData.ResetBasket | src/components/AppData.ts:56-58 | the basket is empty; the order and the catalog are unchanged |
| AppDataStore.AppData.SetOrderField | src/components/AppData.ts:61-71 | only the written field changes; both validators always run; `contacts:ready` is emitted iff email and phone are set and `order:ready` iff payment and address are set; `formErrors` ends as the delivery mapping |
| AppDataStore.AppData.ValidateContacts | src/components/AppData.ts:74-88 | `formErrors` is replaced by the contact mapping, `contactsErrors:change` is emitted with it, and the result is true iff it is empty |
| AppDataStore.AppData.ValidateOrder | src/components/AppData.ts:91-104 | `formErrors` is replaced by the delivery mapping, `orderErrors:change` is emitted with it, and the result is true iff it is empty |
| AppDataStore.AppData.ResetOrder | src/components/AppData.ts:107-116 | the order becomes the blank template (payment `''`, total 0, no items), whatever it was, so a second reset changes nothing |
| AppDataStore.AddThenRemove | src/components/AppData.ts:30-48 | on the store object, adding a product whose id is absent and then removing that id restores the basket, its count and its total |
| AppStateStore.AppState.constructor | src/components/AppState.ts:4-8 | the store starts with an empty basket, no errors and the blank order |
| AppStateStore.AppState.Count | src/components/AppState.ts:39-41 | the count is zero exactly when the basket is empty |
| AppStateStore.AppState.Total | src/components/AppState.ts:44-46 | the total is 0 for an empty basket and never negative when no price is |
| AppStateStore.AppState.SetCatalog | src/components/AppState.ts:11-14 | the catalog becomes the given products and `items:changed` is emitted |
| AppStateStore.AppState.Add | src/components/AppState.ts:29-31 | the item is appended as the last line; nothing else changes |
| AppStateStore.AppState.Remove | src/components/AppState.ts:34-36 | the basket becomes the by-id filter of the old one; the order, including its item ids, is unchanged |
| AppStateStore.AppState.Selected | src/components/AppState.ts:49-51 | the order's items become the basket ids in basket order; nothing else changes |
| AppStateStore.AppState.SetDataOrder | src/components/AppState.ts:54-62 | only the written field changes; the delivery validator always runs; the contact validator and its event run only when the delivery mapping is empty |
| AppStateStore.AppState.ResetBasket | src/components/AppState.ts:65-67 | the basket is empty; the order and the catalog are unchanged |
| AppStateStore.AppState.ResetDataOrder | src/components/AppState.ts:70-72 | the order becomes the blank template again, so repeated resets agree |
| AppStateStore.AppState.ResetCount | src/components/AppState.ts:75-77 | the basket is truncated to length 0 and 0 is returned |
| AppStateStore.AppState.ResetSelected | src/components/AppState.ts:80-84 | every catalog product has `selected` false; the catalog and all other state are unchanged |
| AppStateStore.AppState.ValidateAddress | src/components/AppState.ts:87-102 | `formErrors` is replaced by the delivery mapping, `addressErrors:change` is emitted with it, and the result is true iff it is empty |
| AppStateStore.AppState.ValidateContacts | src/components/AppState.ts:105-120 | `formErrors` is replaced by the contact mapping, `contactsErrors:change` is emitted with it, and the result is true iff it is empty |
| FormViews.Present | src/index.ts:201 | the filtered message list holds only non-empty messages, and it is empty iff no key carries a message |
| FormViews.ErrorsText | src/index.ts:200-201 | the joined error line is empty iff the form is valid |
| FormViews.DeliveryFormState | src/index.ts:198-202 | for a delivery mapping the form is valid iff payment and address are set, and the error line lists the address message before the payment message |
| FormViews.ContactsFormState | src/index.ts:205-209 | for a contact mapping the form is valid iff email and phone are set, and the error line lists the email message before the phone message |
| Presenter.Checkout.constructor | src/index.ts:32 | the controller owns a fresh `AppData` emitting on the controller's bus |
| Presenter.Checkout.OnAddInBasket | src/index.ts:95-100 | the product is selected, it is the last basket line, and the order's items equal the basket ids |
| Presenter.Checkout.OnBasketOpen | src/index.ts:103-127 | the basket view shows the total, and the checkout button is disabled iff the basket is empty |
| Presenter.Checkout.OnItemRemove | src/index.ts:130-135 | the product is unselected, no line carries its id, the order's items equal the remaining ids, and the basket view is refreshed through `basket:open`; both forms' validity and error lines are unchanged |
| Presenter.Checkout.OnOrderSubmit | src/index.ts:149-160 | the order's total becomes the basket total, the basket, the store's errors mapping, the delivery form and the basket view are unchanged, and the contacts form is shown invalid with no errors |
| Presenter.Checkout.OnContactsSubmitted | src/index.ts:163-176 | on acceptance `order:success` is emitted and the basket is empty and the order blank; on rejection basket, order and trace are unchanged; on both the catalog and the store's errors mapping are unchanged |
| Presenter.Checkout.OnOrderErrorsChange | src/index.ts:198-202 | the delivery form is valid iff neither address nor payment carries a message, and its error line is empty iff it is valid |
| Presenter.Checkout.OnContactsErrorsChange | src/index.ts:205-209 | the contacts form is valid iff neither email nor phone carries a message, and its error line is empty iff it is valid |
| Presenter.Checkout.OnOrderChange | src/index.ts:212-215 | the field and value reach the store unchanged; afterwards each form is valid iff its two order fields are set, the store's errors mapping is the delivery mapping, and the basket view is unchanged |

## Left out

- The event bus's subscription table, wildcard matching, `off` and `trigger` are left out, because the bus implementation is not part of this model. Emissions are a trace. Synchronous dispatch is modelled only where a modelled handler reacts to a modelled emission: `item:remove` calls the `basket:open` handler, and `order:change` calls the two errors handlers. Emitting with no subscribers is therefore not represented.
- The view classes are left out: cards, page, modal, basket list and form rendering. So are the events they emit themselves (`modal:open`/`modal:close` from the modal, `order:change` and `*:submit` from forms). So are the render-only handlers `items:render`, `card:selected`, `order:open`, `order:success`, `modal:open` and `modal:close`. The model keeps only the view state that a modelled handler sets: the basket price and button, and the two forms' validity and error line.
- Fetching the catalog and posting the order are asynchronous network calls. The post's result is a `Submission` parameter. The posted order body and the logging of failures are not modelled.
- Prices and totals are JavaScript numbers. They are modelled as integers, so floating-point rounding is not captured.
- Event payloads are value snapshots. The source passes the live `order` and `formErrors` objects, so a listener that kept them would see later writes.
- Errors mappings are unordered maps. The key insertion order of the JavaScript object is not kept. The controller fixes the message order itself, address before payment and email before phone, and the model proves that order.
- The catalog is `undefined` until loaded. The model starts it as the empty sequence.
- `AppState` refers to types (`IBacketCard`, `IValidForm`, `TFormErrors`, `IAppState`) that src/types/index.ts does not declare. The model takes basket lines to be products and the settable fields to be the four order form fields. The entry file never instantiates `AppState`.
- AppStateStore.AppState.ResetCount: the in-place truncation is modelled by assigning the empty sequence. Aliases of the basket array would not see the change, but no alias exists in the source.
- Products.Product.constructor: the field copying happens in the `Model` base class, which is not part of this model. It is assumed to copy every record field. The bus reference each product receives is not modelled.
