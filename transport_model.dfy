/**
 * A transport model: a concrete priced vehicle of one transport type. All
 * five fields are set once by the constructor and only read afterwards,
 * so a value models it; `getId`, `getName`, `getPricePerKilometer`,
 * `getTransportType` and `getFullSpeed` are the destructors. The transport
 * type is a reference: the model shares the very object it was given, so
 * delivery types added to it later are seen through the model.
 */
module TransportModels {
  import opened TransportTypes

  /**
   * Neither `pricePerKilometer` nor `fullSpeed` is checked: zero and
   * negative values are accepted.
   */
  datatype TransportModel = TransportModel(
    id: int,
    name: string,
    pricePerKilometer: real,
    transportType: TransportType,
    fullSpeed: int)
}
