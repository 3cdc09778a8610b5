/** The exceptions the modelled Python code can raise, as values. */
module Errors {

  datatype Raised =
    | KeyError(key: string)        // a required key is absent from the request dictionary
    | NotConvertible               // `float(...)` rejects the value (TypeError or ValueError)
    | Unhashable                   // a list or object used as a dictionary key (TypeError)
    | UnseenLabel(index: int)      // `inverse_transform` of an index without a class
    | EmptySequence                // `max()` of an empty probability array
    | ModelNotLoaded               // subscripting the global `model_data` while it is None
    | EmptyTrainingData            // `X[:, 0:1]` on the empty feature array (IndexError)
    | NotIterable                  // a membership test on a request body that is not a JSON object
}
