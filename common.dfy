/** Small shared vocabulary: optional values, fallible results and the opaque
    identities the model uses for host objects (elements, callbacks, handles). */
module Common {

  datatype Option<T> = None | Some(value: T)

  /** A constructor either yields an instance or fails with the error message it throws. */
  datatype Result<T> = Ok(value: T) | Err(message: string)

  /** A DOM element, by identity only. */
  type ElementId = nat

  /** A user-supplied callback, by identity only: the model records whether and
      which callback is configured, and which ones fire, not what they do. */
  type CallbackId = nat

  /** A handle returned by the host for a pending frame, timer, observer or listener. */
  type Handle = nat

  function Min(a: real, b: real): real { if a <= b then a else b }
  function Max(a: real, b: real): real { if a >= b then a else b }

  /** Math.floor over reals, as a real. */
  function FloorR(x: real): real { x.Floor as real }
}
