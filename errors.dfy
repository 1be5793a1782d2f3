/**
 * The exceptions the request handlers raise or catch, and the `detail` of an
 * HTTP error response.
 */
module Errors {

  /** Message of the RuntimeError raised by the vector store before initialisation. */
  const NotInitializedMessage := "Qdrant client o embedding model non inizializzati."

  datatype Exception =
    | HttpException(status: int, detail: string)  // raised explicitly by a handler
    | KeyError(column: string)                    // a column the frame does not have
    | NotInitialized                              // RuntimeError(NotInitializedMessage)
    | CollectionNotFound(name: string)            // the vector backend has no such collection
    | UpsertFailed                                // the vector backend raised while storing a point
    | GenerationFailed                            // the generation service raised

  /**
   * The `detail` of an error response: a fixed message, or `str(e)` of an
   * exception caught by a generic `except Exception as e` handler. For an
   * `HttpException(s, d)` that text is "<s>: <d>"; for the others it is the
   * library's own text, which is kept abstract as the exception itself.
   */
  datatype Detail = Message(text: string) | StrOf(error: Exception)
}
