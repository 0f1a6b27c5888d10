/** Values that the two stores only copy from one record to another and never compute on,
    and the shapes of what a store operation hands back to its subscriber. */
module Values {

  /** A JavaScript `Date`, kept as the ISO-8601 text it was constructed from. */
  datatype Date = Date(iso: string)

  /** A JavaScript `number` (a place's price, a booking's guest count); only ever copied. */
  type Number = real

  /** A value that may be missing; for the snapshot an update writes, None means the
      update threw and wrote nothing. */
  datatype Option<T> = None | Some(value: T)

  /** What the subscriber of a one-shot store pipeline receives: the value that
      `tap` passes on unchanged, or the error notification when the tap throws. */
  datatype Outcome<T> = Emitted(value: T) | ErrorRaised
}
