/** What a handler sends back: a status code with either the payload or an error
    message. The JSON envelope (`success`, `data`, `error`) is not modelled. */
module Http {

  datatype Reply<T> = Ok(code: int, data: T) | Fail(code: int, error: string)
}
