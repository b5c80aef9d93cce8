/**
 * The weather provider reached through `axios.get`. It answers every request
 * by a fixed oracle and records the requests it receives, so that the model
 * can say which calls an operation makes and which it does not.
 */
module Upstream {
  import opened Models

  class Provider<T> {
    /** The provider's answer to each request. */
    const answer: Request -> Transport<T>
    /** Every request received so far, oldest first. */
    var log: seq<Request>

    constructor (answer: Request -> Transport<T>)
      ensures this.answer == answer
      ensures log == []
    {
      this.answer := answer;
      log := [];
    }

    /** One GET request: it is logged and answered. */
    method Get(request: Request) returns (t: Transport<T>)
      modifies this
      ensures log == old(log) + [request]
      ensures t == answer(request)
    {
      log := log + [request];
      t := answer(request);
    }
  }
}
