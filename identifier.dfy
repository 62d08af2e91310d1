/**
 * The resource identifier codec (`encrypt`/`decrypt` of
 * everyclass/server/utils/resource_identifier_encrypt.py, which is not part of this model).
 * An encoded identifier is kept symbolic: it records the resource type it was produced for and
 * the raw id, which is what the factories and the page handlers rely on.
 */
module Identifier {
  import opened Wrappers
  import opened Payload

  /** `encrypt(resource_type, raw_id)` */
  function Encrypt(resourceType: string, raw: Value): Value {
    Encoded(resourceType, raw)
  }

  /** `decrypt(handle, resource_type=...)`: ValueError unless the handle was made for that type. */
  function Decrypt(handle: Value, resourceType: string): (r: Option<Value>)
    ensures r.Some? <==> handle.Encoded? && handle.resourceType == resourceType
  {
    if handle.Encoded? && handle.resourceType == resourceType then Some(handle.raw) else None
  }

  /** Decoding an identifier with the type it was encoded for gives back the raw id. */
  lemma RoundTrip(resourceType: string, raw: Value)
    ensures Decrypt(Encrypt(resourceType, raw), resourceType) == Some(raw)
  {
  }

  /** An identifier of one resource type is never accepted as one of another type. */
  lemma NoTypeConfusion(t1: string, t2: string, raw: Value)
    requires t1 != t2
    ensures Decrypt(Encrypt(t1, raw), t2) == None
  {
  }
}
