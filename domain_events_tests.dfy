/** The dispatcher's test scenarios, one method per test. Each runs the
    scenario on a fresh `EventDispatcher` and returns what the test
    inspects: the entry `getEventHandlers[...]`, or the `handle` calls that
    notify made, which stand for the test's call spies. */
module DomainEventsTests {
  import opened Events
  import opened EventDispatch
  import EnviaConsoleLog

  /** Register one handler: the entry is defined, of length 1, and holds
      that handler at index 0. */
  method ShouldRegisterAnEventHandler(handler: HandlerId) returns (entry: Option<seq<HandlerId>>)
    ensures entry == Some([handler])
  {
    var dispatcher := new EventDispatcher();
    dispatcher.Register("ProductCreatedEvent", handler);
    entry := Lookup(dispatcher.eventHandlers, "ProductCreatedEvent");
    assert entry.Some? && |entry.value| == 1 && entry.value[0] == handler;
  }

  /** Register, then unregister, the same handler: the entry is still
      defined, with length 0. */
  method ShouldUnregisterAnEventHandler(handler: HandlerId) returns (entry: Option<seq<HandlerId>>)
    ensures entry == Some([])
  {
    var dispatcher := new EventDispatcher();
    dispatcher.Register("ProductCreatedEvent", handler);
    assert dispatcher.eventHandlers["ProductCreatedEvent"][0] == handler;
    dispatcher.Unregister("ProductCreatedEvent", handler);
    entry := Lookup(dispatcher.eventHandlers, "ProductCreatedEvent");
  }

  /** Register, then unregister all: the entry is undefined. */
  method ShouldUnregisterAllEventHandlers(handler: HandlerId) returns (entry: Option<seq<HandlerId>>)
    ensures entry == None
  {
    var dispatcher := new EventDispatcher();
    dispatcher.Register("ProductCreatedEvent", handler);
    assert dispatcher.eventHandlers["ProductCreatedEvent"][0] == handler;
    dispatcher.UnregisterAll();
    entry := Lookup(dispatcher.eventHandlers, "ProductCreatedEvent");
  }

  /** Notify a product-created event: the registered handler handles it,
      once. */
  method ShouldNotifyAllEventHandlers(handler: HandlerId) returns (calls: seq<Invocation>)
    ensures calls == [Invocation(handler,
      ProductCreatedEvent(ProductCreatedData("Product 1", "Product 1 description", 10.0)))]
  {
    var dispatcher := new EventDispatcher();
    dispatcher.Register("ProductCreatedEvent", handler);
    assert dispatcher.eventHandlers["ProductCreatedEvent"][0] == handler;
    var event := ProductCreatedEvent(ProductCreatedData("Product 1", "Product 1 description", 10.0));
    calls := dispatcher.Notify(event);
  }

  /** Notify a customer-created event: the handler registered under
      "CustomerCreatedEvent" handles it, once. Both console-log handler
      tests run this scenario; they differ only in the handler's class. */
  method ShouldDispatchOnCustomerCreated(handler: HandlerId) returns (calls: seq<Invocation>)
    ensures calls == [Invocation(handler,
      CustomerCreatedEvent(CustomerCreatedData("1", "Epaminondas da Silva", true)))]
  {
    var dispatcher := new EventDispatcher();
    dispatcher.Register("CustomerCreatedEvent", handler);
    assert dispatcher.eventHandlers["CustomerCreatedEvent"][0] == handler;
    var event := CustomerCreatedEvent(CustomerCreatedData("1", "Epaminondas da Silva", true));
    calls := dispatcher.Notify(event);
  }

  /** Notify an address-changed event: the console-log handler registered
      under "AddressChangedEvent" handles it, once, and so logs the line
      for the event's nested address. */
  method ShouldDispatchEnviaConsoleLogOnAddressChanged(handler: HandlerId) returns (calls: seq<Invocation>, line: string)
    ensures calls == [Invocation(handler, AddressChangedEvent(AddressChangedData("1", "Epaminondas da Silva",
      Address("Rua XV de Novembro", 500, "Blumenau", "89023-000"))))]
    ensures line == EnviaConsoleLog.Message("1", "Epaminondas da Silva", "Rua XV de Novembro, 500 - Blumenau, 89023-000")
  {
    var dispatcher := new EventDispatcher();
    dispatcher.Register("AddressChangedEvent", handler);
    assert dispatcher.eventHandlers["AddressChangedEvent"][0] == handler;
    var event := AddressChangedEvent(AddressChangedData("1", "Epaminondas da Silva",
      Address("Rua XV de Novembro", 500, "Blumenau", "89023-000")));
    calls := dispatcher.Notify(event);
    EnviaConsoleLog.AddressChangedTestMessage(calls[0].event);
    line := EnviaConsoleLog.Handle(calls[0].event);
  }
}
