# Domain events of fc-ddd-patterns, in Dafny

This project models two pieces of a Domain-Driven-Design sample written in
TypeScript:

- **The in-process event dispatcher.** It keeps a registry from an
  event-type name (such as `"ProductCreatedEvent"`) to the ordered list of
  handler objects registered under it. Its operations are `register`,
  `unregister`, `unregisterAll` and `notify`, and the registry can be read
  back as `getEventHandlers`. The dispatcher's own source file
  (`src/domain/@shared/event/event-dispatcher.ts`) is not part of this
  model. Its behaviour is rebuilt from its test file,
  `src/domain/@shared/event/event-dispatcher.spec.ts`. Where the tests do
  not fix a behaviour, the model takes the plain reading:
  - register appends at the end and keeps duplicates;
  - unregister removes the first entry identical to the handler;
  - unregister on an unknown key changes nothing.
- **The address-changed log line of `EnviaConsoleLogHandler.handle`.** The
  handler formats the payload's address with one template literal and
  builds the logged message with a second one.

Files and modules:

- `events.dfy`, module `Events`: the event values and their payloads.
  `TypeName` is the event's class name, which is the key `notify` looks up.
- `event_dispatch.dfy`, module `EventDispatch`:
  - the class `EventDispatcher`, with a `map<string, seq<HandlerId>>` field
    that its methods update in place;
  - the pure functions `Registered` and `Unregistered`, which give the
    registry after `register` and `unregister`, and `Dispatch`, which gives
    the calls `notify` makes and leaves the registry alone;
  - lemmas about those functions that relate several calls.

  `Notify` returns the `handle` calls it makes as a sequence of
  `Invocation`s. This log takes the place of the tests' call spies.
- `domain_events_tests.dfy`, module `DomainEventsTests`: the test
  scenarios, one method per test. Each returns what its test inspects.
- `envia_console_log.dfy`, module `EnviaConsoleLog`:
  - `Decimal` renders a number as `${n}` does;
  - `Interpolate` gives the meaning of a template literal;
  - `FormattedAddress`, `Message` and `Handle` build the logged line;
  - lemmas give the line's exact shape and where each field sits in it.

`Handle` is a function of the event value. It therefore reads only the
event's payload and cannot change the event.

## Model

| member | source | states |
|---|---|---|
| `Events.TypeNameIdentifiesClass` | src/domain/@shared/event/event-dispatcher.spec.ts:88-120 | two events share a dispatcher key exactly when they are of the same event class, so a handler registered under `"CustomerCreatedEvent"` is picked only for customer-created events |
| `EventDispatch.EventDispatcher.constructor` | src/domain/@shared/event/event-dispatcher.spec.ts:12 | a new dispatcher has an empty registry |
| `EventDispatch.EventDispatcher.Register` | src/domain/@shared/event/event-dispatcher.spec.ts:15-25 | the handler is appended to the list under the type name, which is created when absent; on a new type the entry is exactly `[handler]`; other keys are untouched |
| `EventDispatch.EventDispatcher.Unregister` | src/domain/@shared/event/event-dispatcher.spec.ts:38-45 | the first occurrence of the handler is removed from the list; the set of keys is unchanged, so an emptied list stays present; other keys are untouched |
| `EventDispatch.EventDispatcher.UnregisterAll` | src/domain/@shared/event/event-dispatcher.spec.ts:58-62 | the registry becomes empty: every lookup afterwards finds no key |
| `EventDispatch.EventDispatcher.Notify` | src/domain/@shared/event/event-dispatcher.spec.ts:83-85 | the calls made are exactly one `handle(event)` per handler listed under the event's type name, in list order; none for an unknown type; the registry is not changed |
| `EventDispatch.RegisterAppends` | src/domain/@shared/event/event-dispatcher.spec.ts:15-25 | after register the lookup is defined and equals the old list plus the handler at the end; on a fresh type it is `[handler]`, of length 1 with the handler at index 0; other lookups are unchanged |
| `EventDispatch.RemoveFirstRemovesOne` | src/domain/@shared/event/event-dispatcher.spec.ts:38-45 | removing a handler takes exactly one copy of it out of the list when it is there, so the length drops by one, and otherwise keeps the length |
| `EventDispatch.RemoveFirstAbsent` | src/domain/@shared/event/event-dispatcher.spec.ts:38 | removing a handler that is not listed leaves the list unchanged |
| `EventDispatch.RemoveFirstSplices` | src/domain/@shared/event/event-dispatcher.spec.ts:38 | the removal cuts out the entry at the first index that holds the handler and keeps the other entries in order |
| `EventDispatch.UnregisterKeepsKeys` | src/domain/@shared/event/event-dispatcher.spec.ts:38-45 | unregister keeps the registry's key set and the other keys' lists; it removes one copy of the handler from its type's list; on an unknown type it changes nothing |
| `EventDispatch.UnregisterAbsentIsNoOp` | src/domain/@shared/event/event-dispatcher.spec.ts:38 | unregistering a handler not listed under the type, or under an unknown type, leaves the whole registry unchanged |
| `EventDispatch.UnregisterOnlyHandler` | src/domain/@shared/event/event-dispatcher.spec.ts:32-45 | registering then unregistering the only handler of a type leaves the key defined with an empty list |
| `EventDispatch.UnregisterUndoesRegister` | src/domain/@shared/event/event-dispatcher.spec.ts:32-45 | unregistering a handler right after registering it, when it was not already listed, restores the previous list |
| `EventDispatch.UnregisterDiffersFromUnregisterAll` | src/domain/@shared/event/event-dispatcher.spec.ts:38-62 | after unregister the lookup is `Some([])`; after unregister-all it is `None`; the two differ |
| `EventDispatch.DispatchCallsRegistered` | src/domain/@shared/event/event-dispatcher.spec.ts:70-85 | notify calls a handler if and only if it is listed under the event's type name, and every call receives that event |
| `EventDispatch.InvocationsAppend` | src/domain/@shared/event/event-dispatcher.spec.ts:83 | one more handler at the end of a list adds one call at the end of the log |
| `EventDispatch.InvocationsCount` | src/domain/@shared/event/event-dispatcher.spec.ts:83-85 | each handler is called as many times as it occurs in the list |
| `EventDispatch.DispatchCallsOncePerRegistration` | src/domain/@shared/event/event-dispatcher.spec.ts:65-86 | notify calls each handler once per registration under the event's type, and a handler not listed there never |
| `EventDispatch.RegisterThenDispatch` | src/domain/@shared/event/event-dispatcher.spec.ts:88-120 | registering under the event's type name adds that handler's call at the end of what notify does; registering under another name changes nothing |
| `EventDispatch.RegisterOnFreshThenDispatch` | src/domain/@shared/event/event-dispatcher.spec.ts:122-141 | on a fresh dispatcher the handler at index 0 after register is the one notify calls, exactly once |
| `EventDispatch.RegisterUnregisterThenDispatch` | src/domain/@shared/event/event-dispatcher.spec.ts:28-46 | a handler registered then unregistered on a fresh dispatcher is never called by notify |
| `EventDispatch.ClearedDispatchesNothing` | src/domain/@shared/event/event-dispatcher.spec.ts:58-62 | after unregister-all notify calls no handler |
| `DomainEventsTests.ShouldRegisterAnEventHandler` | src/domain/@shared/event/event-dispatcher.spec.ts:11-26 | the test's entry is defined, of length 1, holding the registered handler |
| `DomainEventsTests.ShouldUnregisterAnEventHandler` | src/domain/@shared/event/event-dispatcher.spec.ts:28-46 | the test's entry is defined and empty after unregister |
| `DomainEventsTests.ShouldUnregisterAllEventHandlers` | src/domain/@shared/event/event-dispatcher.spec.ts:48-63 | the test's entry is undefined after unregister-all |
| `DomainEventsTests.ShouldNotifyAllEventHandlers` | src/domain/@shared/event/event-dispatcher.spec.ts:65-86 | notify of the product-created event calls the registered handler exactly once, with that event |
| `DomainEventsTests.ShouldDispatchOnCustomerCreated` | src/domain/@shared/event/event-dispatcher.spec.ts:88-120 | notify of the customer-created event calls the handler registered under `"CustomerCreatedEvent"` exactly once, with that event |
| `DomainEventsTests.ShouldDispatchEnviaConsoleLogOnAddressChanged` | src/domain/@shared/event/event-dispatcher.spec.ts:122-142 | notify of the address-changed event calls the registered handler exactly once; the console-log handler then logs the message for `"Rua XV de Novembro, 500 - Blumenau, 89023-000"` |
| `EnviaConsoleLog.Decimal` | src/domain/customer/event/handler/envia-console-log.handler.ts:9 | `${number}` renders as at least one decimal digit, with no leading zero; a rendering that starts with `0` is exactly `"0"`, the rendering of 0 |
| `EnviaConsoleLog.DecimalRoundTrip` | src/domain/customer/event/handler/envia-console-log.handler.ts:9 | reading the rendered digits back gives the number |
| `EnviaConsoleLog.DecimalInjective` | src/domain/customer/event/handler/envia-console-log.handler.ts:9 | different numbers render differently |
| `EnviaConsoleLog.InterpolateLength` | src/domain/customer/event/handler/envia-console-log.handler.ts:9-11 | a template literal's length is the total length of its literal pieces plus that of its substitutions, so it adds and drops no character |
| `EnviaConsoleLog.FormattedAddressIsExact` | src/domain/customer/event/handler/envia-console-log.handler.ts:9 | the formatted address is exactly `street + ", " + number + " - " + city + ", " + zip` |
| `EnviaConsoleLog.MessageIsExact` | src/domain/customer/event/handler/envia-console-log.handler.ts:10-12 | the message is exactly `"Endereço do client: " + id + ", " + name + " alterado para: " + formattedAddress` |
| `EnviaConsoleLog.HandleIsExact` | src/domain/customer/event/handler/envia-console-log.handler.ts:7-12 | the line `handle` logs, written out from the event payload's id, name and address fields |
| `EnviaConsoleLog.HandleLayout` | src/domain/customer/event/handler/envia-console-log.handler.ts:8-11 | the line starts with the 20-character greeting, then the id verbatim, then ", " and the name verbatim; it ends with the formatted address, and so with the zip verbatim; its length is the sum of the parts |
| `EnviaConsoleLog.FormattedAddressNumber` | src/domain/customer/event/handler/envia-console-log.handler.ts:9 | the number's digits stand right after the street and ", ", and reading them back gives the number |
| `EnviaConsoleLog.DecimalFiveHundred` | src/domain/@shared/event/event-dispatcher.spec.ts:135 | the test's house number 500 renders as `"500"` |
| `EnviaConsoleLog.TestAddressFormatted` | src/domain/@shared/event/event-dispatcher.spec.ts:133-138 | the test's address formats as `"Rua XV de Novembro, 500 - Blumenau, 89023-000"` |
| `EnviaConsoleLog.AddressChangedTestMessage` | src/domain/customer/event/handler/envia-console-log.handler.ts:8-12 | for the test's address-changed event, `handle` logs the message for id `"1"`, name `"Epaminondas da Silva"` and address `"Rua XV de Novembro, 500 - Blumenau, 89023-000"` |

## Left out

- The dispatcher's own source file is not part of this model. Three behaviours are the model's plain reading and are not fixed by the tests: duplicates are kept on register, unregister removes only the first identical entry, and unregister on an unknown key is a no-op.
- Handler failures during `notify` are not modelled. The tests do not fix what happens when a handler throws. The model's handlers never fail.
- Handler bodies other than `EnviaConsoleLogHandler` are not modelled; their sources are outside this model. A handler is known only by its identity (`HandlerId`), and a call to it appears only as an entry in the invocation log.
- `console.log` is not modelled. `Handle` returns the line that would be printed.
- The event classes' fields other than the payload, such as the time the event occurred, are not modelled.
- `ProductCreatedData.price` is a JavaScript floating-point number. The model carries it as a `real` and never computes with it.
- EnviaConsoleLog.Decimal: the house number is modelled as a `nat` rendered in plain decimal. JavaScript also accepts fractional and negative numbers there, switches to exponent notation from 10^21, and does not represent integers above 2^53 exactly. None of this is modelled.
- The order repository (Sequelize persistence over SQLite) and `Order.total()` are not modelled. They are ORM glue and floating-point arithmetic over entity sources that are outside this model.
