/** Domain events raised by the entities and handed to the event dispatcher.
    An event is an immutable value; its payload is the `eventData` object the
    event class is constructed with. */
module Events {

  /** The address object nested in an address-changed payload. */
  datatype Address = Address(street: string, number: nat, city: string, zip: string)

  /** Payload of a product-created event. */
  datatype ProductCreatedData = ProductCreatedData(name: string, description: string, price: real)

  /** Payload of a customer-created event. */
  datatype CustomerCreatedData = CustomerCreatedData(id: string, name: string, active: bool)

  /** Payload of an address-changed event. */
  datatype AddressChangedData = AddressChangedData(id: string, name: string, address: Address)

  /** One constructor per event class. */
  datatype Event =
    | ProductCreatedEvent(product: ProductCreatedData)
    | CustomerCreatedEvent(customer: CustomerCreatedData)
    | AddressChangedEvent(change: AddressChangedData)

  /** The name of the event's class: the key under which the dispatcher
      looks up the handlers to notify. */
  function TypeName(e: Event): string
  {
    match e
    case ProductCreatedEvent(_) => "ProductCreatedEvent"
    case CustomerCreatedEvent(_) => "CustomerCreatedEvent"
    case AddressChangedEvent(_) => "AddressChangedEvent"
  }

  /** Two events are of the same class. */
  predicate SameClass(e1: Event, e2: Event)
  {
    || (e1.ProductCreatedEvent? && e2.ProductCreatedEvent?)
    || (e1.CustomerCreatedEvent? && e2.CustomerCreatedEvent?)
    || (e1.AddressChangedEvent? && e2.AddressChangedEvent?)
  }

  /** The type name tells the event classes apart: two events share a
      dispatcher key exactly when they are of the same class. */
  lemma TypeNameIdentifiesClass(e1: Event, e2: Event)
    ensures TypeName(e1) == TypeName(e2) <==> SameClass(e1, e2)
  {
  }
}
