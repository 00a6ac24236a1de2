/** Option and Result, and the exceptions the adapter raises. */
module Wrappers {

  /** `None` stands for JavaScript's `undefined` in canonical records. */
  datatype Option<T> = None | Some(value: T)

  /** The error classes the adapter throws, named as in the exchange library. */
  datatype Error =
    | ArgumentsRequired(argument: string)  // a required argument is undefined
    | NotSupported(what: string)           // an API class, side or order type outside the tables
    | BadRequest                           // fetchBalance got no account assets
    | AuthenticationError                  // signing without an API key or secret
    | InvalidAddress                       // checkAddress refused the address
    | BadSymbol                            // market(symbol) found no such market
    | ExchangeError                        // currency(code) found no such currency
    | TypeError                            // a property read on undefined or null

  datatype Result<T> = Success(value: T) | Failure(error: Error) {
    predicate IsFailure() { Failure? }

    function PropagateFailure<U>(): Result<U>
      requires Failure?
    {
      Failure(error)
    }

    function Extract(): T
      requires Success?
    {
      value
    }
  }
}
