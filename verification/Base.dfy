/** Small shared vocabulary. */
module Base {
  datatype Option<+T> = None | Some(value: T)

  /** The media kinds carried by producers, consumers and tracks. */
  datatype Kind = Audio | Video

  /** A client is identified by the id in the query string of its web socket. */
  type ClientId = string

  /** Requests and responses are correlated by an id the requester picks. */
  type RequestId = string
}
