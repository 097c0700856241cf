/** Option and Result, the two wrappers the server code returns through. */
module Wrappers {

  datatype Option<+T> = None | Some(value: T)

  /** The outcome of a fallible step; `message` plays the part of the text
      carried by the server's error type. */
  datatype Result<+T> = Ok(value: T) | Err(message: string)

  /** `Option::get` on a map: the value under `k`, if any. */
  function Get<K, V>(m: map<K, V>, k: K): (r: Option<V>)
    ensures r.Some? <==> k in m
    ensures r.Some? ==> r.value == m[k]
  {
    if k in m then Some(m[k]) else None
  }
}
