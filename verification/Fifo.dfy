/**
 The interface between the daemon and its client ring buffer: what a push, a look
 at the head and a removal mean on the queued messages, oldest first.
 The logging state machine uses the ring only through these; the byte-level ring
 buffer is proved to meet them.
 */
module Fifo {

  /** A push appends the message or changes nothing, and is refused only while at least two are queued. */
  predicate PushMeets<T(==)>(before: seq<T>, m: T, accepted: bool, after: seq<T>) {
    && after == (if accepted then before + [m] else before)
    && (!accepted ==> |before| >= 2)
  }
}
