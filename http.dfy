/** What an HTTP exchange can return to the modelled code: a transport-level
    failure (request not built, not sent, or body not read) or a reply. */
module Http {

  const StatusOK: int := 200

  datatype Reply = TransportFailure(reason: string) | Response(status: int, body: string)
}
