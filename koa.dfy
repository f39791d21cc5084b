/**
 * The per-request context the controllers read and write: the route's `:id`, the
 * engine's prefix, email and store (placed on the application context by the engine),
 * and the response status and body.
 */
module Koa {

  import opened Wrappers
  import opened Model
  import Store

  datatype Body =
    | NoBody
    | AccountBody(account: Account)
    | DetailsBody(details: PaymentDetails)

  class Context {
    const id: string
    const prefix: string
    const ppEmail: string
    const redis: Store.Redis
    var status: int
    var body: Body
    var account: Option<Account>

    /** A fresh request context; a response nobody has written to is a 404 with no body. */
    constructor (id: string, prefix: string, ppEmail: string, redis: Store.Redis)
      ensures this.id == id && this.prefix == prefix && this.ppEmail == ppEmail && this.redis == redis
      ensures status == 404 && body == NoBody && account == None
    {
      this.id := id;
      this.prefix := prefix;
      this.ppEmail := ppEmail;
      this.redis := redis;
      status := 404;
      body := NoBody;
      account := None;
    }
  }
}
