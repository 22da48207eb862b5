# Cargo Express contract issuance, modelled in Dafny

This project models how the carrier issues a delivery contract. A request
names a client, a vehicle model, a start date, a destination and a delivery
type. `DeliveryContractOperation::execute` validates the request, prices the
job, estimates when it ends, and returns either the collected errors or one
new contract. It also models the domain objects the operation reads: the
transport-type hierarchy, transport models, delivery types, the contract and
the request.

One Dafny module per source file:

- `php_runtime.dfy` (`PhpRuntime`) holds the PHP behaviour the core relies on:
  - nullable values (`Option`);
  - returned values versus thrown errors (`Outcome`, `Fault`);
  - the truthiness of a nullable int;
  - the sign rule of PHP's `%`.
- `delivery_type.dfy` (`DeliveryTypes`): the delivery type is a datatype whose coefficient defaults to 1.
- `transport_type.dfy` (`TransportTypes`): the transport type is a class.
  - Its id, name, speed limit and parent are constants.
  - Its delivery-type list is the only field that changes after construction.
  - A ghost `depth` strictly decreases up the parent chain (`Valid`). This is what makes the recursive lookups terminate.
- `transport_model.dfy` (`TransportModels`), `client.dfy` (`Clients`) and `delivery_request.dfy` (`DeliveryRequests`) hold value records.
  - Their getters are the datatype destructors.
  - A transport model holds a reference to its `TransportType` object, so that object is shared rather than copied.
- `delivery_contract.dfy` (`DeliveryContracts`): the contract is a class. `status` is its only mutable field.
- `delivery_contract_operation.dfy` (`DeliveryContractOperation`) models the operation.
  - `DeliveryResponse` is the response class: an error list plus an optional contract.
  - `Issue` specifies the whole decision as a function.
  - `Validate` and `Execute` build the response step by step. They are proved to agree with `Issue`.
- `issuance_scenarios.dfy` (`IssuanceScenarios`) rebuilds the four situations of the repository's operation tests from real objects, passes each one to `Execute`, and proves the outcome.

Collaborators are inputs to the operation:

- The repositories are the `Repositories` datatype:
  - `getById` of clients, transport models and delivery types are maps. An id missing from a map makes the call fail.
  - `getForTransportModel` is a function of (model id, start date), so a slot collision needs an exact match on both.
  - `getCountByClientId` is a function of the client id.
- `DateTime` parsing is the parameter `parseDate`. It maps a date string to a minute count, or to `None` when the string does not parse.

The model follows PHP 8 semantics. Every way the PHP code can end in an exception is a `Fault`, not a precondition:

- a repository that cannot resolve an id;
- `getDeliveryTypes` returning something that is not an array;
- a destination missing from the distance table: the lookup yields `null`, and `calculatePrice(int ...)` then throws a TypeError;
- a zero speed (PHP 8's `DivisionByZeroError`);
- an unparsable start date.

Behaviour of the code that the model keeps:

- A transport type with no delivery types of its own and a parent throws from `getDeliveryTypes`: the parent's speed limit is returned from an array-typed method. See Findings.
- A root transport type with no delivery types throws from `getDeliveryTypes`: its list was never initialised, so the array-typed method fails.
- An unknown destination ends in a TypeError.
- Any odd contract count earns the discount, negative counts included, because PHP's `-1 % 2` is `-1`, which is not 0.
- The error texts are the Russian sentences of the code, the misspelling "трансторта" included.
- Price per kilometre, speed limits and full speed may be any value: the code checks none of them for positivity.

## Model

| member | source | states |
|---|---|---|
| `PhpRuntime.PhpRemainderByTwo` | src/Delivery/DeliveryContractOperation.php:153 | PHP's `% 2` keeps the dividend's sign. It is zero exactly when the number is even, and non-zero exactly when it is odd. |
| `DeliveryTypes.CoefficientDefault` | src/Delivery/DeliveryType.php:24-29 | Omitting the coefficient gives 1. An explicit coefficient, the id and the name are kept as given. |
| `TransportTypes.TransportType.constructor` | src/TransportType.php:33-39 | Id, name, speed limit and parent are stored as given and never change again. The delivery-type list starts empty. The new node's parent chain is finite. |
| `TransportTypes.TransportType.GetSpeedLimit` | src/TransportType.php:60-66 | A truthy own limit is returned as is. Otherwise the answer is truthy or is the root's own value (null or 0 included). |
| `TransportTypes.TransportType.SpeedLimitSource` | src/TransportType.php:60-66 | The effective limit is the own limit of the first node up the chain whose limit is truthy, or the root's own value when no node has one. |
| `TransportTypes.TransportType.AddDeliveryType` | src/TransportType.php:72-75 | Appends at the end and keeps earlier entries. Duplicates are accepted. Id, name, limit and parent are constants. |
| `TransportTypes.TransportType.GetDeliveryTypes` | src/TransportType.php:80-86 | Returns the own list exactly when it is non-empty, with nothing merged from ancestors. With an empty list it throws. Under a parent, the thrown value is the parent's speed limit returned from an array-typed method. |
| `TransportTypes.TransportType.FallbackThrowsInsteadOfInheriting` | src/TransportType.php:82-83 | A child with no delivery types under a parent that has some throws. The intended lookup would yield the parent's list. |
| `TransportTypes.TransportType.InheritedDeliveryTypes` | src/TransportType.php:80-86 | Intended lookup: the own list when it is non-empty. It is empty only when no node up the chain has delivery types. |
| `TransportTypes.TransportType.InheritedTypesSource` | src/TransportType.php:80-86 | Intended lookup: the own list of the first node up the chain that has delivery types, or the root's empty list. |
| `TransportTypes.TransportType.AsWrittenAgreesWhenItReturns` | src/TransportType.php:80-86 | Wherever the code as written returns a list, that list equals the intended one. |
| `DeliveryContracts.DeliveryContract.constructor` | src/Delivery/DeliveryContract.php:45-52 | Client, model, start date, price and end date are stored verbatim. The status starts as 'in_progress'. |
| `DeliveryContracts.DeliveryContract.SetStatus` | src/Delivery/DeliveryContract.php:65-68 | Any string becomes the status, with no transition check. Every other field is constant. |
| `DeliveryContractOperation.DeliveryResponse.constructor` | src/Delivery/DeliveryContractOperation.php:98 | A new response has no errors and no contract. |
| `DeliveryContractOperation.DeliveryResponse.PushError` | src/Delivery/DeliveryContractOperation.php:103 | Appends one error and leaves the contract alone. |
| `DeliveryContractOperation.DeliveryResponse.SetDeliveryContract` | src/Delivery/DeliveryContractOperation.php:85 | Sets the contract and leaves the errors alone. |
| `DeliveryContractOperation.PathDistances` | src/Delivery/DeliveryContractOperation.php:15-18 | The distance table holds exactly New York (250 km) and Moscow (50 km). |
| `DeliveryContractOperation.Discount` | src/Delivery/DeliveryContractOperation.php:20 | The discount rate is 0.2. `Price` states that a discounted client pays four fifths. |
| `DeliveryContractOperation.BusyMessage` | src/Delivery/DeliveryContractOperation.php:103 | The busy error is a fixed greeting, the vehicle's name, a fixed word and the start date. Both the name and the date can be read back from it at fixed positions. |
| `DeliveryContractOperation.UnavailableMessage` | src/Delivery/DeliveryContractOperation.php:113 | The delivery-type error is one fixed sentence, independent of the request. |
| `DeliveryContractOperation.MessagesDiffer` | src/Delivery/DeliveryContractOperation.php:103-113 | The busy message can never equal the delivery-type message. |
| `DeliveryContractOperation.FilterById` | src/Delivery/DeliveryContractOperation.php:108-112 | Keeps exactly the delivery types whose id equals the requested id, compared by id. The result is empty exactly when no listed type has that id. |
| `DeliveryContractOperation.FilterByIdKeepsDuplicates` | src/Delivery/DeliveryContractOperation.php:108-112 | Every delivery type with the requested id stays in the filtered list as often as it is listed, and no other type appears. |
| `DeliveryContractOperation.ValidationErrors` | src/Delivery/DeliveryContractOperation.php:98-118 | Both checks always run, and at most two errors result. The busy error is present exactly when the slot query finds a contract. The delivery-type error is present exactly when no listed type has the requested id. When both are present the busy error comes first. A failed lookup throws. |
| `DeliveryContractOperation.Validate` | src/Delivery/DeliveryContractOperation.php:96-121 | Answers null exactly when no error was pushed. Otherwise it answers a fresh response with exactly the collected errors and no contract. A failed delivery-type lookup throws. |
| `DeliveryContractOperation.IsClientEntitledToDiscount` | src/Delivery/DeliveryContractOperation.php:145-158 | Entitled exactly when the contract count is odd, so 0 and every even count get no discount. |
| `DeliveryContractOperation.DiscountAlternates` | src/Delivery/DeliveryContractOperation.php:145-158 | Entitlement flips with each further contract: none at count 0, a discount at count 1. |
| `DeliveryContractOperation.FullPrice` | src/Delivery/DeliveryContractOperation.php:132 | The undiscounted price is 0 for no distance or a zero coefficient. Under the default coefficient 1 it is the plain per-kilometre rate times the distance. |
| `DeliveryContractOperation.Price` | src/Delivery/DeliveryContractOperation.php:132-136 | Without entitlement the charge is the full price. With entitlement it is exactly four fifths of it. |
| `DeliveryContractOperation.DiscountTakesOffAFifth` | src/Delivery/DeliveryContractOperation.php:132-136 | Without the discount the price is price per km × coefficient × distance. The discount takes off exactly one fifth, and it never raises a non-negative price. |
| `DeliveryContractOperation.PriceExamples` | src/Delivery/DeliveryContractOperation.php:130-139 | 20 × 1 × 250 costs 5000 for a count of 0 and 4000 for a count of 1. |
| `DeliveryContractOperation.CalculatePrice` | src/Delivery/DeliveryContractOperation.php:130-139 | Computes the full price and applies the 20% discount when the client's count (looked up by the client's id) entitles it. |
| `DeliveryContractOperation.EffectiveSpeed` | src/Delivery/DeliveryContractOperation.php:168-171 | Uses the type's effective limit when it is truthy, otherwise the model's full speed. The speed is zero exactly when there is no truthy limit and the full speed is 0. |
| `DeliveryContractOperation.Duration` | src/Delivery/DeliveryContractOperation.php:173 | Duration × speed = 120 × distance, i.e. the minutes for the round trip. |
| `DeliveryContractOperation.CalculateEndDate` | src/Delivery/DeliveryContractOperation.php:166-179 | Throws exactly when the speed is 0 (a division by zero, checked first) or the date does not parse (an unparsable-date fault naming the date). Otherwise (end − start) × speed = 120 × distance. |
| `DeliveryContractOperation.Issue` | src/Delivery/DeliveryContractOperation.php:62-88 | Either a rejection carrying 1 or 2 errors, or a contract, never both. |
| `DeliveryContractOperation.RejectedExactlyOnValidationErrors` | src/Delivery/DeliveryContractOperation.php:67-71 | The request is rejected exactly when the model and delivery type resolve and validation collects errors. The rejection carries those errors unchanged. |
| `DeliveryContractOperation.RejectionIgnoresPricingInputs` | src/Delivery/DeliveryContractOperation.php:67-77 | A rejected request never reaches the client lookup, the discount count, the distance table or the date parser. Changing any of them changes nothing. |
| `DeliveryContractOperation.AcceptedExactlyWhenFreeAndOffered` | src/Delivery/DeliveryContractOperation.php:73-87 | A contract is issued exactly when all of these hold: every entity resolves, the slot is free, the type's own list has the delivery type's id, the destination is in the table, the speed is non-zero and the date parses. |
| `DeliveryContractOperation.AcceptedContractTerms` | src/Delivery/DeliveryContractOperation.php:73-87 | The issued contract holds the resolved client and model, the requested start date verbatim, the (possibly discounted) price, and an end one round trip after the start. |
| `DeliveryContractOperation.Execute` | src/Delivery/DeliveryContractOperation.php:62-88 | Throws exactly when `Issue` does. On rejection it returns the validation response unchanged. On success it returns a fresh response with no errors and one fresh contract in status 'in_progress' holding `Issue`'s terms. |
| `IssuanceScenarios.RailwayUnderGround` | tests/Delivery/DeliveryContractOperationTest.php:147-160 | Railway without a limit, under ground with limit 50, resolves to limit 50. Its own list is [regular]. |
| `IssuanceScenarios.BusyMessageText` | tests/Delivery/DeliveryContractOperationTest.php:121 | The busy message for Турбо Пушка at 2020-01-01 10:00 is 'Извините Турбо Пушка занята 2020-01-01 10:00'. |
| `IssuanceScenarios.PeriodIsBusy` | tests/Delivery/DeliveryContractOperationTest.php:50-123 | An occupied slot gives exactly one error, that message, and no contract. |
| `IssuanceScenarios.SuccessfulOperation` | tests/Delivery/DeliveryContractOperationTest.php:128-196 | A free slot gives no error and a contract: price 5000, end 600 minutes after the start, status 'in_progress'. |
| `IssuanceScenarios.WrongDeliveryType` | tests/Delivery/DeliveryContractOperationTest.php:201-270 | Express on the railway gives exactly the delivery-type error, because the own list hides ground's express. |
| `IssuanceScenarios.ClientEntitledToDiscount` | tests/Delivery/DeliveryContractOperationTest.php:275-343 | A client with one earlier contract pays 4000. |
| `IssuanceScenarios.ModelSeesLaterDeliveryTypes` | src/TransportModel.php:68-71 | The model shares its transport-type object: a delivery type added later is seen through the model. |
| `IssuanceScenarios.InternationalFallback` | src/TransportType.php:82-83 | 'International' under air, with no own types, throws as written. The intended lookup yields air's [express]. |

The getters need no member of their own:

- `TransportModel`'s five getters, and `getId`, `getName`, `getCoefficient` of `DeliveryType`, are datatype destructors.
- `getId`, `getName` and `getParentTransportType` of `TransportType`, and `getPrice` of `DeliveryContract`, read constant fields.

## Left out

- `DateTime` parsing, `modify` and `format('Y-m-d H:i')` are library calls. Parsing is the `parseDate` parameter, which gives whole minutes. The end date is that minute count plus the duration. It is not rounded and not formatted.
- `DeliveryContracts.DeliveryContract.constructor`: stores the end date as a minute count, not as the formatted string the code stores, because formatting is a library call.
- `DeliveryContractOperation.CalculateEndDate`: does not model how `DateTime::modify` handles a fractional number of minutes.
- PHP 8 semantics are assumed. Under PHP 7, a zero speed at src/Delivery/DeliveryContractOperation.php:173 only warns and gives INF. `modify('+INF minutes')` then fails without throwing, and a contract is issued whose end equals its start.
- `TransportTypes.TransportType.GetDeliveryTypes`: with an empty list, PHP 8 already throws at `count(null)` on line 82, and only PHP 7 reaches line 83. The outcome is a TypeError either way. The fault records the value line 83 would return.
- `TransportTypes.TransportType.AddDeliveryType`: accepts only `DeliveryType` values. The PHP parameter is untyped, so any value can be appended. `validate`'s typed closure (src/Delivery/DeliveryContractOperation.php:108) then throws a TypeError, a case the model cannot express.
- `DeliveryContractOperation.FilterById`: states membership, emptiness and (through `FilterByIdKeepsDuplicates`) multiplicities. It does not state that `array_filter` keeps the original order, because only the emptiness of the result is ever read.
- Prices and durations are PHP floats. They are modelled as exact `real` numbers, with no IEEE rounding.
- The repositories are interfaces with no code here (`DeliveryTypeRepository` and the unseen clients, transport-models and contracts repositories). Their answers are the `Repositories` input.
- The `DeliveryContractOperation` constructor, which only stores the four repositories, is replaced by passing them to `Execute`.
- `Client` and `DeliveryResponse` are defined elsewhere in the application. Only the shape the operation uses is modelled: a client's id and name, and a response's errors plus optional contract.
- Faults record which error occurs, not PHP's message text.
- The slot check is a single read with no locking. Two concurrent requests for the same slot are out of scope: the model is sequential.
- The zero-width characters inside the `speedLimit` identifiers are cosmetic and have no behavioural effect.
- The PHPUnit/Prophecy harness is not modelled. Its four situations are restated as the `IssuanceScenarios` methods. Of its fixture, the scenarios build ground and railway; air for `ModelSeesLaterDeliveryTypes`; and air and international for `InternationalFallback`. The other types it creates are never consulted.

## Findings

| source | as written | input that shows it | evidently intended | confidence | as-written member | corrected member |
|---|---|---|---|---|---|---|
| src/TransportType.php:82-83 | With no own delivery types and a parent, `getDeliveryTypes` returns `$this->parentTransportType->getSpeedLimit()` (an int or null) from a method declared `: array`, so it always throws a TypeError. At a root it returns the never-initialised `null`. | The 'International' type under 'Air' (express), with no own delivery types: any request for a model of that type throws instead of being validated. | Inherit the parent's delivery types (`$this->parentTransportType->getDeliveryTypes()`), and give an empty list at a root. | high; not executed | `TransportTypes.TransportType.FallbackThrowsInsteadOfInheriting` | `TransportTypes.TransportType.InheritedDeliveryTypes` |

`Execute` keeps the code's behaviour: it uses the as-written `GetDeliveryTypes`, so the model predicts what the operation actually does. `AsWrittenAgreesWhenItReturns` proves that whenever the as-written lookup returns, it returns the corrected one's list. So replacing it with `InheritedDeliveryTypes` changes only the requests that throw today.
