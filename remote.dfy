/**
 * What a store action sees of a remote call, and what it records in its
 * `error` field when the call fails.
 *
 * Every store action catches the failure of its service call and stores
 * `e.response?.data || e.message`: the server's response body when there
 * is one and it is truthy, otherwise the failure's own description.
 */
module Remote {

  datatype Option<+T> = None | Some(value: T)

  /** A response body as the HTTP client hands it over. */
  datatype Payload =
    | Text(text: string)     // a plain-text body
    | Document(json: string) // a JSON object or array; always truthy

  /** JavaScript truthiness of a response body: only the empty string is falsy. */
  predicate Truthy(p: Payload)
  {
    match p
    case Text(t) => t != ""
    case Document(_) => true
  }

  /**
   * A rejected call: `data` is `e.response?.data` (None when there is no
   * response, or its body is null or undefined), `message` is `e.message`.
   */
  datatype Failure = Failure(data: Option<Payload>, message: string)

  /** The outcome of one awaited service call. */
  datatype Outcome<+T> = Ok(value: T) | Fail(failure: Failure)

  /** What a store keeps in its `error` field. */
  datatype ErrorValue = ServerData(data: Payload) | Description(message: string)

  /**
   * The text of the TypeError the JavaScript engine raises when a property
   * of `undefined` or `null` is read. Its exact wording depends on the
   * engine; the model only fixes that it is a description, not server data.
   */
  const PropertyReadError: string := "TypeError: cannot read property of undefined or null"

  /** `e.response?.data || e.message`. */
  function Reported(f: Failure): (e: ErrorValue)
    ensures e.ServerData? <==> f.data.Some? && Truthy(f.data.value)
    ensures e.ServerData? ==> e.data == f.data.value
    ensures e.Description? ==> e.message == f.message
  {
    match f.data
    case Some(p) => if Truthy(p) then ServerData(p) else Description(f.message)
    case None => Description(f.message)
  }

  /** A local computation that either yields a value or throws a TypeError. */
  datatype Attempt<+T> = Done(value: T) | Thrown
}
