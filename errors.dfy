/** The exceptions raised by the network's discrete core, and the result types that carry them. */
module Errors {

  /** The Python exceptions the modelled code can raise. */
  datatype Error =
    | KeyError                      // a layer index missing from the architecture dict
    | ShapeError                    // the ValueError numpy's reshape raises for a slice with the wrong element count
    | IndexError                    // a label that addresses no row of the one-hot matrix
    | NotImplemented                // an optimiser name with no entry in the optimiser table
    | AttributeError(name: string)  // set_params given a name that is not an attribute
    | TypeError                     // fit finding an architecture that refuses item assignment, an optimiser that is
                                    // not a function, or layer sizes that are not integers
    | ValueError                    // fit unpacking the shape of an X that np.squeeze left with fewer than two axes

  /** A computed value, or the exception that stopped the computation. */
  datatype Result<+R> = Success(value: R) | Failure(error: Error)

  /** A state change that either completed or stopped with an exception. */
  datatype Outcome = Pass | Fail(error: Error)
}
