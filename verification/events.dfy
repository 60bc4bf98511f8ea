/**
 * The event bus, seen from the emitting side: every `emit` appends its event
 * name and payload to the trace, in call order. Subscription and dispatch are
 * not part of this module.
 */
module Events {
  import opened Products
  import opened Orders

  /** The payloads the modelled code passes to `emit`. */
  datatype Payload =
    | NoPayload
    | CatalogPayload(catalog: seq<Product>)
    | ErrorsPayload(errors: Errors)
    | OrderPayload(order: Order)
    | SuccessPayload(total: int)

  datatype Event = Event(name: string, payload: Payload)

  class EventEmitter {
    /** Every event emitted so far, oldest first. */
    var emitted: seq<Event>

    constructor ()
      ensures emitted == []
    {
      emitted := [];
    }

    method Emit(name: string, payload: Payload)
      modifies this
      ensures emitted == old(emitted) + [Event(name, payload)]
    {
      emitted := emitted + [Event(name, payload)];
    }
  }
}
