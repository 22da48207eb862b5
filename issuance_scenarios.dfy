/**
 * The carrier's four reference situations, built from real objects and
 * passed to `Execute`, with their outcomes proved: the hierarchy "railway under ground" (ground: limit 50,
 * express and regular delivery; railway: no limit, regular delivery only),
 * the vehicle "Турбо Пушка" (20 per km, full speed 100) of the railway
 * type, and a request to New York (250 km). Dates are read as minutes since
 * 1970-01-01 00:00 UTC.
 */
module IssuanceScenarios {
  import opened PhpRuntime
  import opened DeliveryTypes
  import opened TransportTypes
  import opened TransportModels
  import opened Clients
  import opened DeliveryRequests
  import opened DeliveryContracts
  import opened DeliveryContractOperation

  const Express: DeliveryType := DeliveryType(1, "Экспресс доставка", 2)
  const Regular: DeliveryType := DeliveryType(2, "Обычная доставка")

  /** The date parser for the two start dates the situations use. */
  function ParseDate(date: string): Option<int> {
    if date == "2020-01-01 10:00" then Some(26297880)
    else if date == "2020-01-01 17:30" then Some(26298330)
    else None
  }

  /** Builds ground (limit 50) and railway beneath it, with their delivery types. */
  method RailwayUnderGround() returns (ground: TransportType, railway: TransportType)
    ensures fresh(ground) && fresh(railway)
    ensures ground.Valid() && railway.Valid() && railway.parent == ground && ground.parent == null
    ensures ground.speedLimit == Some(50) && railway.speedLimit == None
    ensures ground.deliveryTypes == [Express, Regular] && railway.deliveryTypes == [Regular]
    ensures railway.GetSpeedLimit() == Some(50)
  {
    ground := new TransportType(1, "Наземный транспорт", Some(50));
    ground.AddDeliveryType(Express);
    ground.AddDeliveryType(Regular);
    railway := new TransportType(4, "Железнодорожный транспорт", None, ground);
    railway.AddDeliveryType(Regular);
  }

  /** The busy message for the vehicle at 10:00, letter by letter. */
  lemma BusyMessageText()
    ensures BusyMessage("Турбо Пушка", "2020-01-01 10:00") == "Извините Турбо Пушка занята 2020-01-01 10:00"
  {
    var built := BusyMessage("Турбо Пушка", "2020-01-01 10:00");
    var expected := "Извините Турбо Пушка занята 2020-01-01 10:00";
    assert |built| == |expected|;
    forall i | 0 <= i < |built| ensures built[i] == expected[i] { }
  }

  /**
   * Another client already holds the vehicle at 10:00: exactly one error,
   * naming the vehicle and the date, and no contract.
   */
  method PeriodIsBusy() returns (errors: seq<string>, contract: DeliveryContract?)
    ensures errors == ["Извините Турбо Пушка занята 2020-01-01 10:00"] && contract == null
  {
    var ground, railway := RailwayUnderGround();
    var model := TransportModel(1, "Турбо Пушка", 20.0, railway, 100);
    var johnny, robert := Client(1, "Джонни"), Client(2, "Роберт");
    var existing := new DeliveryContract(johnny, model, "2020-01-01 00:00", 50.0, 26297280.0 + 1200.0);
    var repos := Repositories(
      (modelId: int, startDate: string) => if modelId == 1 && startDate == "2020-01-01 10:00" then [existing] else [],
      (clientId: int) => 0,
      map[1 := johnny, 2 := robert], map[1 := model], map[2 := Regular]);
    var request := DeliveryRequest(2, 1, "2020-01-01 10:00", "Нью-Йорк", 2);
    assert |repos.contractsForSlot(1, "2020-01-01 10:00")| == 1;
    var validation := ValidationErrors(request, model, Regular, repos).value;
    assert validation[0] in validation && |validation| == 1;
    assert validation == [BusyMessage("Турбо Пушка", "2020-01-01 10:00")];
    BusyMessageText();
    var r := Execute(request, repos, ParseDate);
    errors, contract := r.value.errors, r.value.contract;
  }

  /**
   * A free vehicle, a regular delivery and a client with no earlier
   * contract: a contract at the full price of 5000, ending 600 minutes
   * (250 km out and back at the inherited 50) after the start.
   */
  method SuccessfulOperation() returns (errors: seq<string>, price: real, endDate: real, status: string)
    ensures errors == [] && price == 5000.0 && endDate == 26298330.0 + 600.0 && status == "in_progress"
  {
    var ground, railway := RailwayUnderGround();
    var model := TransportModel(1, "Турбо Пушка", 20.0, railway, 100);
    var johnny := Client(1, "Джонни");
    var repos := Repositories(
      (modelId: int, startDate: string) => [],
      (clientId: int) => 0,
      map[1 := johnny], map[1 := model], map[2 := Regular]);
    var request := DeliveryRequest(1, 1, "2020-01-01 17:30", "Нью-Йорк", 2);
    assert ValidationErrors(request, model, Regular, repos) == Returned([]);
    assert EffectiveSpeed(model) == 50;
    var r := Execute(request, repos, ParseDate);
    errors, price, endDate, status := r.value.errors, r.value.contract.price, r.value.contract.endDate, r.value.contract.status;
  }

  /**
   * Express delivery on the railway: its own list [regular] hides the
   * express delivery of ground, so exactly the delivery-type error.
   */
  method WrongDeliveryType() returns (errors: seq<string>, contract: DeliveryContract?)
    ensures errors == [UnavailableMessage] && contract == null
  {
    var ground, railway := RailwayUnderGround();
    var model := TransportModel(1, "Турбо Пушка", 20.0, railway, 100);
    var robert := Client(2, "Роберт");
    var repos := Repositories(
      (modelId: int, startDate: string) => [],
      (clientId: int) => 0,
      map[2 := robert], map[1 := model], map[1 := Express]);
    var request := DeliveryRequest(2, 1, "2020-01-01 10:00", "Нью-Йорк", 1);
    assert FilterById([Regular], Express.id) == [];
    var validation := ValidationErrors(request, model, Express, repos).value;
    assert validation[0] in validation && |validation| == 1;
    assert validation == [UnavailableMessage];
    var r := Execute(request, repos, ParseDate);
    errors, contract := r.value.errors, r.value.contract;
  }

  /** The same job for a client with one earlier contract costs 4000. */
  method ClientEntitledToDiscount() returns (errors: seq<string>, price: real)
    ensures errors == [] && price == 4000.0
  {
    var ground, railway := RailwayUnderGround();
    var model := TransportModel(1, "Турбо Пушка", 20.0, railway, 100);
    var johnny := Client(1, "Джонни");
    var repos := Repositories(
      (modelId: int, startDate: string) => [],
      (clientId: int) => if clientId == 1 then 1 else 0,
      map[1 := johnny], map[1 := model], map[2 := Regular]);
    var request := DeliveryRequest(1, 1, "2020-01-01 17:30", "Нью-Йорк", 2);
    assert ValidationErrors(request, model, Regular, repos) == Returned([]);
    assert EffectiveSpeed(model) == 50;
    var r := Execute(request, repos, ParseDate);
    errors, price := r.value.errors, r.value.contract.price;
  }

  /**
   * The model shares its transport type object: a delivery type added to
   * that object after the model was built is seen through the model.
   */
  method ModelSeesLaterDeliveryTypes() returns (seen: Outcome<seq<DeliveryType>>)
    ensures seen == Returned([Express])
  {
    var air := new TransportType(2, "Воздушный транспорт");
    var model := TransportModel(2, "Кукурузник", 10.0, air, 200);
    air.AddDeliveryType(Express);
    assert air.deliveryTypes == [Express];
    seen := model.transportType.GetDeliveryTypes();
  }

  /**
   * "International" under air, with no delivery types of its own: the
   * lookup as written throws (it hands back air's speed limit, null), where
   * the intended lookup yields air's [express].
   */
  method InternationalFallback() returns (asWritten: Outcome<seq<DeliveryType>>, intended: seq<DeliveryType>)
    ensures asWritten == Thrown(DeliveryTypesNotAnArray(None)) && intended == [Express]
  {
    var air := new TransportType(2, "Воздушный транспорт");
    air.AddDeliveryType(Express);
    var international := new TransportType(3, "Международные", None, air);
    asWritten := international.GetDeliveryTypes();
    intended := international.InheritedDeliveryTypes();
  }
}
