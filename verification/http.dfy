/** What the relays send back, and what the browser code gets from a `fetch` call. */
module Http {

  /** A response a handler writes with `res.status(status).json(body)`. */
  datatype HttpResponse<B> = HttpResponse(status: int, body: B)

  /**
   * The outcome of `await fetch(...)` followed by `await response.json()` in the browser:
   * the parsed JSON body (whatever the status was), or the message of the error thrown
   * when the request failed or the body was not JSON.
   */
  datatype Delivery<B> = Received(body: B) | Thrown(message: string)
}
