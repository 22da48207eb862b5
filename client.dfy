/** A client, as far as contract issuance sees it: an id and a name. */
module Clients {

  datatype Client = Client(id: int, name: string)
}
