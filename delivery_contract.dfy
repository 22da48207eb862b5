/**
 * A delivery contract: a snapshot of the client, the vehicle, the dates and
 * the price, with a status that is the only field changed after construction.
 */
module DeliveryContracts {
  import opened Clients
  import opened TransportModels

  /** The status every new contract starts with. */
  const InProgress: string := "in_progress"

  class DeliveryContract {
    const client: Client
    const transportModel: TransportModel
    /** The start date exactly as requested. */
    const startDate: string
    /** `getPrice()` returns this. */
    const price: real
    /** The estimated end, in minutes on the same clock as the parsed start date. */
    const endDate: real
    /** 'in_progress' at first; the client's signature is meant to make it 'signed'. */
    var status: string

    constructor (client: Client, transportModel: TransportModel, startDate: string, price: real, endDate: real)
      ensures this.client == client && this.transportModel == transportModel
      ensures this.startDate == startDate && this.price == price && this.endDate == endDate
      ensures status == InProgress
    {
      this.client := client;
      this.transportModel := transportModel;
      this.startDate := startDate;
      this.price := price;
      this.endDate := endDate;
      this.status := InProgress;
    }

    /**
     * `setStatus`: any string is accepted, with no check of the transition;
     * the other fields are constants and cannot change.
     */
    method SetStatus(status: string)
      modifies this
      ensures this.status == status
    {
      this.status := status;
    }
  }
}
