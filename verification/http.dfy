/**
 What the screens see of the REST backend: JSON bodies (only their string
 fields are modelled), rejected requests carrying an optional error body
 (`error.response.data`), the reply of one request, and the alerts the
 screens raise.
 */
module Http {
  import opened Wrappers
  import opened Text

  /** The string-valued fields of a JSON body; a `null` body is the empty map. */
  type Body = map<string, string>

  /** `body?.name` */
  function Field(body: Body, name: string): Option<string> {
    if name in body then Some(body[name]) else None
  }

  /** A rejected call: `error.response?.data`, absent when the request never got a response (or the error is not an HTTP one). */
  datatype Fault = Fault(response: Option<Body>)

  /** `error?.response?.data?.name` */
  function FaultField(f: Fault, name: string): Option<string> {
    match f.response
    case Some(body) => Field(body, name)
    case None => None
  }

  /** `value || fallback` for a `string | undefined`. */
  function OrElse(value: Option<string>, fallback: string): (r: string)
    ensures Truthy(value) ==> r == value.value
    ensures !Truthy(value) ==> r == fallback
  {
    if Truthy(value) then value.value else fallback
  }

  /** The settled promise of one collaborator call. */
  datatype Reply<T> = Resolved(value: T) | Rejected(fault: Fault)

  /** `Alert.alert(title, message)` */
  datatype Alert = Alert(title: string, message: string)

  /** The `{ email, senha }` body posted to `/auth/login`. */
  datatype Credentials = Credentials(email: string, senha: string)
}
