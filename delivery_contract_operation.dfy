/**
 * Contract issuance: validate a delivery request (is the vehicle free at
 * the requested start, does its transport type offer the requested
 * delivery type), then price the job, estimate when it ends and build the
 * contract.
 *
 * The repositories the operation consults are its inputs (`Repositories`),
 * and so is the date parser (`parseDate`). `Issue` is the specification
 * of the whole decision; `Execute` builds the response object step by step
 * and is proved to agree with it.
 */
module DeliveryContractOperation {
  import opened PhpRuntime
  import opened DeliveryTypes
  import opened TransportTypes
  import opened TransportModels
  import opened Clients
  import opened DeliveryRequests
  import opened DeliveryContracts

  /** Distances in kilometres to the two destinations the operation knows. */
  const PathDistances: map<string, int> := map["Нью-Йорк" := 250, "Москва" := 50]

  /** The share of the price taken off for a client entitled to a discount. */
  const Discount: real := 0.2

  /**
   * The error pushed when the transport type does not offer the delivery
   * type. It is written as two literals so that `MessagesDiffer` can
   * compare its second letter with the busy message's.
   */
  const UnavailableMessage: string := "Указанный" + " вид доставки не доступен для данного вида трансторта"

  /**
   * The error pushed when the vehicle already has a contract starting at
   * that date: a fixed greeting, the vehicle's name, a fixed word and the
   * start date, so both the name and the date can be read back from it.
   */
  function BusyMessage(modelName: string, startDate: string): (message: string)
    ensures |message| == 17 + |modelName| + |startDate|
    ensures message[9..9 + |modelName|] == modelName
    ensures message[|message| - |startDate|..] == startDate
  {
    "Извините " + modelName + " занята " + startDate
  }

  /** The two messages can never be confused: they differ in their second letter. */
  lemma MessagesDiffer(modelName: string, startDate: string)
    ensures BusyMessage(modelName, startDate) != UnavailableMessage
  {
    assert BusyMessage(modelName, startDate)[1] == 'з';
    assert UnavailableMessage[1] == 'к';
  }

  /**
   * What the operation's collaborators answer: the contracts repository's
   * `getForTransportModel` and `getCountByClientId`, and the `getById` of
   * the clients, transport-models and delivery-types repositories (an id
   * they cannot resolve makes the call fail).
   */
  datatype Repositories = Repositories(
    contractsForSlot: (int, string) -> seq<DeliveryContract>,
    contractCountOf: int -> int,
    clients: map<int, Client>,
    transportModels: map<int, TransportModel>,
    deliveryTypes: map<int, DeliveryType>)

  /** Every stored transport model hangs under a well-formed hierarchy. */
  ghost predicate ModelsValid(repos: Repositories) {
    forall id :: id in repos.transportModels ==> repos.transportModels[id].transportType.Valid()
  }

  /** The transport types of the stored models: all the state issuance reads. */
  ghost function ModelTypes(repos: Repositories): set<TransportType> {
    set id | id in repos.transportModels :: repos.transportModels[id].transportType
  }

  /**
   * The response: the errors pushed so far and, on success, the contract.
   * It is created empty by both `validate` and `execute`.
   */
  class DeliveryResponse {
    var errors: seq<string>
    var contract: DeliveryContract?

    constructor ()
      ensures errors == [] && contract == null
    {
      errors := [];
      contract := null;
    }

    method PushError(error: string)
      modifies this
      ensures errors == old(errors) + [error] && contract == old(contract)
    {
      errors := errors + [error];
    }

    method SetDeliveryContract(contract: DeliveryContract)
      modifies this
      ensures this.contract == contract && errors == old(errors)
    {
      this.contract := contract;
    }
  }

  /**
   * The `array_filter` of `validate`: the delivery types whose id equals
   * `id`, compared by id and not by identity.
   */
  function FilterById(types: seq<DeliveryType>, id: int): (matching: seq<DeliveryType>)
    ensures forall d :: d in matching ==> d in types && d.id == id
    ensures forall d :: d in types && d.id == id ==> d in matching
    ensures |matching| <= |types|
    ensures |matching| == 0 <==> forall d :: d in types ==> d.id != id
  {
    if types == [] then []
    else (if types[0].id == id then [types[0]] else []) + FilterById(types[1..], id)
  }

  /** The filter drops no duplicate: each matching type stays as often as it is listed. */
  lemma {:induction false} FilterByIdKeepsDuplicates(types: seq<DeliveryType>, id: int)
    ensures forall d :: multiset(FilterById(types, id))[d] == if d.id == id then multiset(types)[d] else 0
  {
    if types != [] {
      FilterByIdKeepsDuplicates(types[1..], id);
      assert types == [types[0]] + types[1..];
    }
  }

  /**
   * The errors `validate` collects. Both checks always run, the slot check
   * first; a TypeError from `getDeliveryTypes` discards the list.
   */
  function ValidationErrors(request: DeliveryRequest, model: TransportModel, deliveryType: DeliveryType,
                            repos: Repositories): (r: Outcome<seq<string>>)
    reads model.transportType
    requires model.transportType.Valid()
    ensures r.Returned? <==> model.transportType.GetDeliveryTypes().Returned?
    ensures r.Thrown? ==> r.fault == model.transportType.GetDeliveryTypes().fault
    ensures r.Returned? ==> |r.value| <= 2
    ensures r.Returned? ==>
      (BusyMessage(model.name, request.startDate) in r.value <==>
         |repos.contractsForSlot(request.transportModelId, request.startDate)| > 0)
    ensures r.Returned? ==>
      (UnavailableMessage in r.value <==>
         forall d :: d in model.transportType.deliveryTypes ==> d.id != deliveryType.id)
    ensures r.Returned? ==>
      forall e :: e in r.value ==> e == BusyMessage(model.name, request.startDate) || e == UnavailableMessage
    ensures r.Returned? && |r.value| == 2 ==>
      r.value == [BusyMessage(model.name, request.startDate), UnavailableMessage]
  {
    var busy := BusyMessage(model.name, request.startDate);
    var slotErrors := if |repos.contractsForSlot(request.transportModelId, request.startDate)| > 0 then [busy] else [];
    MessagesDiffer(model.name, request.startDate);
    match model.transportType.GetDeliveryTypes()
    case Thrown(f) => Thrown(f)
    case Returned(types) =>
      var typeErrors := if |FilterById(types, deliveryType.id)| == 0 then [UnavailableMessage] else [];
      Returned(slotErrors + typeErrors)
  }

  /**
   * `validate`: pushes the busy error, then the delivery-type error, and
   * answers null exactly when it pushed neither.
   */
  method Validate(request: DeliveryRequest, model: TransportModel, deliveryType: DeliveryType,
                  repos: Repositories) returns (r: Outcome<DeliveryResponse?>)
    requires model.transportType.Valid()
    ensures r.Thrown? <==> ValidationErrors(request, model, deliveryType, repos).Thrown?
    ensures r.Thrown? ==> r.fault == ValidationErrors(request, model, deliveryType, repos).fault
    ensures r.Returned? ==> (r.value == null <==> ValidationErrors(request, model, deliveryType, repos).value == [])
    ensures r.Returned? && r.value != null ==>
      && fresh(r.value)
      && r.value.errors == ValidationErrors(request, model, deliveryType, repos).value
      && r.value.contract == null
  {
    var response := new DeliveryResponse();
    var contracts := repos.contractsForSlot(request.transportModelId, request.startDate);
    if |contracts| > 0 {
      response.PushError(BusyMessage(model.name, request.startDate));
    }
    var types := model.transportType.GetDeliveryTypes();
    if types.Thrown? {
      return Thrown(types.fault);
    }
    var existed := FilterById(types.value, deliveryType.id);
    if |existed| == 0 {
      response.PushError(UnavailableMessage);
    }
    if |response.errors| > 0 {
      return Returned(response);
    }
    return Returned(null);
  }

  /**
   * `isClientEntitledToDiscount`: no discount for a count of 0 or an even
   * count; every odd count, negative ones included, is entitled.
   */
  function IsClientEntitledToDiscount(contractCount: int): (entitled: bool)
    ensures entitled <==> contractCount % 2 == 1
  {
    if contractCount == 0 then false
    else if PhpRemainderByTwo(contractCount) == 0 then false
    else true
  }

  /** Entitlement alternates: it applies to every second contract. */
  lemma DiscountAlternates(contractCount: int)
    ensures IsClientEntitledToDiscount(contractCount) != IsClientEntitledToDiscount(contractCount + 1)
    ensures !IsClientEntitledToDiscount(0) && IsClientEntitledToDiscount(1)
  {
  }

  /**
   * The undiscounted price of a job: nothing for no distance or a zero
   * coefficient, and the plain per-kilometre rate under the default
   * coefficient 1.
   */
  function FullPrice(pricePerKilometer: real, coefficient: int, distance: int): (full: real)
    ensures distance == 0 || coefficient == 0 ==> full == 0.0
    ensures coefficient == 1 ==> full == pricePerKilometer * distance as real
  {
    pricePerKilometer * coefficient as real * distance as real
  }

  /** The price charged: the full price, or four fifths of it under the discount. */
  function Price(pricePerKilometer: real, coefficient: int, distance: int, entitled: bool): (price: real)
    ensures !entitled ==> price == FullPrice(pricePerKilometer, coefficient, distance)
    ensures entitled ==> 5.0 * price == 4.0 * FullPrice(pricePerKilometer, coefficient, distance)
  {
    if entitled then FullPrice(pricePerKilometer, coefficient, distance) * (1.0 - Discount)
    else FullPrice(pricePerKilometer, coefficient, distance)
  }

  /**
   * The discount takes off exactly a fifth, never raises a non-negative
   * price, and is the only thing that changes it.
   */
  lemma DiscountTakesOffAFifth(pricePerKilometer: real, coefficient: int, distance: int)
    ensures Price(pricePerKilometer, coefficient, distance, false) == FullPrice(pricePerKilometer, coefficient, distance)
    ensures 5.0 * Price(pricePerKilometer, coefficient, distance, true)
         == 4.0 * Price(pricePerKilometer, coefficient, distance, false)
    ensures FullPrice(pricePerKilometer, coefficient, distance) >= 0.0 ==>
      0.0 <= Price(pricePerKilometer, coefficient, distance, true) <= Price(pricePerKilometer, coefficient, distance, false)
  {
  }

  /** 20 per km, coefficient 1, 250 km: 5000, or 4000 with the discount. */
  lemma PriceExamples()
    ensures Price(20.0, 1, 250, IsClientEntitledToDiscount(0)) == 5000.0
    ensures Price(20.0, 1, 250, IsClientEntitledToDiscount(1)) == 4000.0
  {
  }

  /**
   * `calculatePrice`: price per kilometre times coefficient times distance,
   * reduced by 20% when the client's contract count entitles it.
   */
  method CalculatePrice(distance: int, model: TransportModel, deliveryType: DeliveryType, client: Client,
                        repos: Repositories) returns (price: real)
    ensures price == Price(model.pricePerKilometer, deliveryType.coefficient, distance,
                           IsClientEntitledToDiscount(repos.contractCountOf(client.id)))
  {
    price := model.pricePerKilometer * deliveryType.coefficient as real * distance as real;
    if IsClientEntitledToDiscount(repos.contractCountOf(client.id)) {
      price := price - price * Discount;
    }
  }

  /**
   * The speed the end date is estimated with: the transport type's
   * effective limit when it is truthy, otherwise the model's full speed.
   * It is 0 only when there is no truthy limit and the full speed is 0.
   */
  function EffectiveSpeed(model: TransportModel): (speed: int)
    requires model.transportType.Valid()
    ensures speed == 0 <==> !Truthy(model.transportType.GetSpeedLimit()) && model.fullSpeed == 0
    ensures Truthy(model.transportType.GetSpeedLimit()) ==> speed == model.transportType.GetSpeedLimit().value
    ensures !Truthy(model.transportType.GetSpeedLimit()) ==> speed == model.fullSpeed
  {
    var limit := model.transportType.GetSpeedLimit();
    if Truthy(limit) then limit.value else model.fullSpeed
  }

  /**
   * Minutes for the round trip: out and back at `speed` km/h, so the
   * vehicle covers twice the distance.
   */
  function Duration(distance: int, speed: int): (minutes: real)
    requires speed != 0
    ensures minutes * speed as real == 120.0 * distance as real
  {
    (distance as real / speed as real) * 60.0 * 2.0
  }

  /**
   * `calculateEndDate`: the parsed start plus the round-trip duration.
   * A zero speed is a division by zero; a start date the parser rejects
   * is an error too.
   */
  function CalculateEndDate(model: TransportModel, distance: int, startDate: string,
                            parseDate: string -> Option<int>): (r: Outcome<real>)
    requires model.transportType.Valid()
    ensures r.Thrown? <==> EffectiveSpeed(model) == 0 || parseDate(startDate).None?
    ensures EffectiveSpeed(model) == 0 ==> r == Thrown(DivisionByZero)
    ensures EffectiveSpeed(model) != 0 && parseDate(startDate).None? ==> r == Thrown(UnparsableDate(startDate))
    ensures r.Returned? ==>
      (r.value - parseDate(startDate).value as real) * EffectiveSpeed(model) as real == 120.0 * distance as real
  {
    var speed := EffectiveSpeed(model);
    if speed == 0 then Thrown(DivisionByZero)
    else match parseDate(startDate)
      case None => Thrown(UnparsableDate(startDate))
      case Some(start) => Returned(start as real + Duration(distance, speed))
  }

  /** What issuance decides: the collected errors, or the terms of a new contract. */
  datatype Decision =
    | Rejected(errors: seq<string>)
    | Accepted(client: Client, transportModel: TransportModel, startDate: string, price: real, endDate: real)

  /**
   * The specification of `execute`: resolve the model and the delivery
   * type, validate, and only when nothing was collected resolve the
   * client and the distance, price the job and estimate its end.
   */
  function Issue(request: DeliveryRequest, repos: Repositories, parseDate: string -> Option<int>): (r: Outcome<Decision>)
    requires ModelsValid(repos)
    reads ModelTypes(repos)
    ensures r.Returned? && r.value.Rejected? ==> 1 <= |r.value.errors| <= 2
  {
    if request.transportModelId !in repos.transportModels then Thrown(TransportModelNotFound(request.transportModelId))
    else if request.deliveryTypeId !in repos.deliveryTypes then Thrown(DeliveryTypeNotFound(request.deliveryTypeId))
    else
      var model := repos.transportModels[request.transportModelId];
      var deliveryType := repos.deliveryTypes[request.deliveryTypeId];
      match ValidationErrors(request, model, deliveryType, repos)
      case Thrown(f) => Thrown(f)
      case Returned(errors) =>
        if errors != [] then Returned(Rejected(errors))
        else if request.clientId !in repos.clients then Thrown(ClientNotFound(request.clientId))
        else if request.toAddress !in PathDistances then Thrown(UnknownDestination(request.toAddress))
        else
          var client := repos.clients[request.clientId];
          var distance := PathDistances[request.toAddress];
          var price := Price(model.pricePerKilometer, deliveryType.coefficient, distance,
                             IsClientEntitledToDiscount(repos.contractCountOf(client.id)));
          match CalculateEndDate(model, distance, request.startDate, parseDate)
          case Thrown(f) => Thrown(f)
          case Returned(endDate) => Returned(Accepted(client, model, request.startDate, price, endDate))
  }

  /**
   * A request is rejected exactly when both entities resolve and
   * validation collects at least one error; the rejection carries those
   * errors, in the order `validate` pushed them.
   */
  lemma RejectedExactlyOnValidationErrors(request: DeliveryRequest, repos: Repositories,
                                          parseDate: string -> Option<int>)
    requires ModelsValid(repos)
    ensures (Issue(request, repos, parseDate).Returned? && Issue(request, repos, parseDate).value.Rejected?) <==>
      && request.transportModelId in repos.transportModels
      && request.deliveryTypeId in repos.deliveryTypes
      && var v := ValidationErrors(request, repos.transportModels[request.transportModelId],
                                   repos.deliveryTypes[request.deliveryTypeId], repos);
         v.Returned? && v.value != []
    ensures Issue(request, repos, parseDate).Returned? && Issue(request, repos, parseDate).value.Rejected? ==>
      Issue(request, repos, parseDate).value.errors
        == ValidationErrors(request, repos.transportModels[request.transportModelId],
                            repos.deliveryTypes[request.deliveryTypeId], repos).value
  {
  }

  /**
   * A rejected request never reaches the client lookup, the discount
   * count, the distance table or the date parser: changing any of them
   * changes nothing.
   */
  lemma RejectionIgnoresPricingInputs(request: DeliveryRequest, repos: Repositories, parseDate: string -> Option<int>,
                                      clients: map<int, Client>, contractCountOf: int -> int,
                                      otherParseDate: string -> Option<int>, toAddress: string)
    requires ModelsValid(repos)
    requires Issue(request, repos, parseDate).Returned? && Issue(request, repos, parseDate).value.Rejected?
    ensures Issue(request.(toAddress := toAddress), repos.(clients := clients, contractCountOf := contractCountOf),
                  otherParseDate)
         == Issue(request, repos, parseDate)
  {
  }

  /**
   * A contract is issued exactly when every entity resolves, the slot is
   * free, the transport type's own list offers the delivery type (by id),
   * the destination is known, the speed is not zero and the start date
   * parses.
   */
  lemma AcceptedExactlyWhenFreeAndOffered(request: DeliveryRequest, repos: Repositories,
                                          parseDate: string -> Option<int>)
    requires ModelsValid(repos)
    ensures (Issue(request, repos, parseDate).Returned? && Issue(request, repos, parseDate).value.Accepted?) <==>
      && request.transportModelId in repos.transportModels
      && request.deliveryTypeId in repos.deliveryTypes
      && request.clientId in repos.clients
      && request.toAddress in PathDistances
      && |repos.contractsForSlot(request.transportModelId, request.startDate)| == 0
      && (exists d :: d in repos.transportModels[request.transportModelId].transportType.deliveryTypes
                      && d.id == repos.deliveryTypes[request.deliveryTypeId].id)
      && EffectiveSpeed(repos.transportModels[request.transportModelId]) != 0
      && parseDate(request.startDate).Some?
  {
  }

  /**
   * An issued contract holds the resolved client and model, the requested
   * start date verbatim, the (possibly discounted) price, and an end date
   * one round trip after the start.
   */
  lemma AcceptedContractTerms(request: DeliveryRequest, repos: Repositories, parseDate: string -> Option<int>)
    requires ModelsValid(repos)
    requires Issue(request, repos, parseDate).Returned? && Issue(request, repos, parseDate).value.Accepted?
    ensures request.transportModelId in repos.transportModels && request.deliveryTypeId in repos.deliveryTypes
    ensures request.clientId in repos.clients && request.toAddress in PathDistances
    ensures parseDate(request.startDate).Some?
    ensures var terms := Issue(request, repos, parseDate).value;
            var model := repos.transportModels[request.transportModelId];
            var distance := PathDistances[request.toAddress];
            && terms.client == repos.clients[request.clientId]
            && terms.transportModel == model
            && terms.startDate == request.startDate
            && terms.price == Price(model.pricePerKilometer, repos.deliveryTypes[request.deliveryTypeId].coefficient,
                                    distance, IsClientEntitledToDiscount(repos.contractCountOf(terms.client.id)))
            && (terms.endDate - parseDate(request.startDate).value as real) * EffectiveSpeed(model) as real
               == 120.0 * distance as real
  {
  }

  /** The response object carries exactly the decision: its errors, or its contract and no error. */
  ghost predicate Describes(response: DeliveryResponse, decision: Decision)
    reads response, response.contract
  {
    match decision
    case Rejected(errors) => response.errors == errors && response.contract == null
    case Accepted(client, model, startDate, price, endDate) =>
      && response.errors == []
      && response.contract != null
      && response.contract.client == client
      && response.contract.transportModel == model
      && response.contract.startDate == startDate
      && response.contract.price == price
      && response.contract.endDate == endDate
      && response.contract.status == InProgress
  }

  /**
   * `execute`: returns the response of `validate` unchanged when it has
   * errors; otherwise a fresh response holding one new contract.
   */
  method Execute(request: DeliveryRequest, repos: Repositories, parseDate: string -> Option<int>)
    returns (r: Outcome<DeliveryResponse>)
    requires ModelsValid(repos)
    ensures r.Thrown? <==> Issue(request, repos, parseDate).Thrown?
    ensures r.Thrown? ==> r.fault == Issue(request, repos, parseDate).fault
    ensures r.Returned? ==> fresh(r.value) && Describes(r.value, Issue(request, repos, parseDate).value)
    ensures r.Returned? && r.value.contract != null ==> fresh(r.value.contract)
  {
    if request.transportModelId !in repos.transportModels {
      return Thrown(TransportModelNotFound(request.transportModelId));
    }
    var model := repos.transportModels[request.transportModelId];
    if request.deliveryTypeId !in repos.deliveryTypes {
      return Thrown(DeliveryTypeNotFound(request.deliveryTypeId));
    }
    var deliveryType := repos.deliveryTypes[request.deliveryTypeId];

    var validation := Validate(request, model, deliveryType, repos);
    if validation.Thrown? {
      return Thrown(validation.fault);
    }
    if validation.value != null {
      return Returned(validation.value);
    }

    var response := new DeliveryResponse();
    if request.clientId !in repos.clients {
      return Thrown(ClientNotFound(request.clientId));
    }
    var client := repos.clients[request.clientId];
    if request.toAddress !in PathDistances {
      return Thrown(UnknownDestination(request.toAddress));
    }
    var distance := PathDistances[request.toAddress];
    var price := CalculatePrice(distance, model, deliveryType, client, repos);
    var endDate := CalculateEndDate(model, distance, request.startDate, parseDate);
    if endDate.Thrown? {
      return Thrown(endDate.fault);
    }
    var contract := new DeliveryContract(client, model, request.startDate, price, endDate.value);
    response.SetDeliveryContract(contract);
    return Returned(response);
  }
}
