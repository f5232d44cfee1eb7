/**
 * The exceptions a resolver operator raises, as values. The exception
 * classes live in the input-resolution exceptions module, which is not part
 * of this model; only their kinds (and, where it is fixed, their message) are
 * modelled.
 */
module ResolverExceptions {

  datatype ResolverError =
    | InvalidArgument          // the operator is configured wrongly (n < 1)
    | SkipSignal               // the operator asks the caller to skip this resolution
    | InputResolutionError(message: string)     // a placeholder failed to evaluate
    | FailedPreconditionError  // a predicate evaluated to a non-boolean value
    | TypeError                // predicate_fn did not build a placeholder Predicate
}
