/** What the workflow forms and the data fetches have in common: how a
    submit ends (a blocking alert naming the first unmet requirement, or
    the payload handed to the owner's `onSubmit`), and how a `fetch` ends
    as seen by the component that awaited it. */
module Forms {

  /** The requirement whose alert blocked a submit. */
  datatype Check =
    | MissingClient             // "Por favor, selecciona un cliente."
    | MissingClientType         // "Por favor, selecciona un tipo de cliente."
    | MissingExtractionPurpose  // "Por favor, indica el propósito de la extracción."
    | MissingFiles              // "Por favor, sube al menos un documento."
    | MissingDocuments          // "Por favor, selecciona al menos un documento."

  /** A submit either raises one alert and stops, or calls `onSubmit` once
      with the payload. */
  datatype Outcome<P> = Blocked(check: Check) | Submitted(payload: P)
}

module Http {
  import opened Optional

  /** How an awaited `fetch` ended for the component: a response whose
      `ok` is false (with its status, its body text and its status text),
      a successfully parsed JSON body, or an exception (a transport
      failure or a body that is not JSON). An exception that is an `Error`
      carries its message; any other thrown value carries none. */
  datatype Response<B> =
    | NotOk(status: nat, bodyText: string, statusText: string)
    | Ok(body: B)
    | Threw(message: Option<string>)
}
