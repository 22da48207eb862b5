/**
 * A request for a delivery: a plain record of five fields, assigned from
 * the constructor's arguments in the order clientId, transportModelId,
 * startDate, toAddress, deliveryTypeId. Neither date nor address is
 * validated.
 */
module DeliveryRequests {

  datatype DeliveryRequest = DeliveryRequest(
    clientId: int,
    transportModelId: int,
    startDate: string,
    toAddress: string,
    deliveryTypeId: int)
}
