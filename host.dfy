/** The browser side of the binding, reduced to what the wrappers observe of it: opaque handles on
    host objects, thrown host values, and the fixed-width integers of the host signatures. */
module Host {

  /** A handle on an object the browser owns (a node, an element, an event target). Only its
      identity is modelled. */
  datatype HostRef = HostRef(id: nat)

  /** A value thrown by a host call. The wrappers never look inside it. */
  datatype JsValue = JsValue(id: nat)

  newtype u16 = x: int | 0 <= x < 0x1_0000

  newtype i32 = x: int | -0x8000_0000 <= x < 0x8000_0000
}
