/**
 * The spec snapshot stored in the `com.openfaas.spec` annotation. The JSON
 * marshaller and unmarshaller are not modelled; they enter as a pair of
 * functions, and the one property the converge engine relies on is stated
 * as a predicate over that pair.
 */
module Snapshot {
  import opened Wrappers
  import opened IngressTypes

  datatype Codec = Codec(
    encode: FunctionIngress -> string,
    decode: string -> Result<FunctionIngress, string>)

  /**
   * What JSON marshalling guarantees here: the text is never empty, and
   * decoding it gives back the spec and the object name it was made from.
   */
  ghost predicate RoundTrips(c: Codec)
  {
    forall x: FunctionIngress {:trigger c.encode(x)} ::
      && |c.encode(x)| > 0
      && c.decode(c.encode(x)).Success?
      && c.decode(c.encode(x)).value.spec == x.spec
      && c.decode(c.encode(x)).value.meta.name == x.meta.name
  }
}
