/**
  The records exchanged between the scanner hook, the messaging hook and the
  two screens: the extracted identity record, the scan result and the send
  result.
 */
module IDTypes {

  datatype Option<T> = None | Some(value: T)

  /** JavaScript truthiness of an optional string: present and not the empty string. */
  predicate Truthy(o: Option<string>) {
    o.Some? && o.value != ""
  }

  /** `o || ''` on an optional string: the string itself, or the empty string when absent. */
  function OrEmpty(o: Option<string>): (s: string)
    ensures Truthy(o) ==> s == o.value
    ensures !Truthy(o) ==> s == ""
  {
    if o.Some? then o.value else ""
  }

  /** The fields read from an identity document: three mandatory strings, two optional ones. */
  datatype Info = Info(
    nom: string,
    prenom: string,
    dateNaissance: string,
    numeroDocument: Option<string>,
    dateExpiration: Option<string>)

  /** The outcome of one scan: a success flag and optional data, error message and image URI. */
  datatype ScanResult = ScanResult(
    success: bool,
    data: Option<Info>,
    error: Option<string>,
    imageUri: Option<string>)

  /** The outcome of one send attempt: a success flag and an optional error message. */
  datatype SendResult = SendResult(success: bool, error: Option<string>)

  /** Route parameters passed from the scanner screen to the results screen; an absent key
      reads as undefined. */
  type Params = map<string, string>
}
