/** The write fence every checkpoint backend shares (internal/checkpoint/checkpoint.go). */
module Checkpoint {
  import opened Model

  datatype Verdict = Accepted | StaleEpoch | StaleTime | StaleUnchanged

  /** A write is accepted from an epoch that is not older, when Time advances or, at the same
      Time, the cursor changes. */
  function CheckMonotonic<C(==)>(stored: Watermark<C>, incoming: Watermark<C>): Verdict {
    if incoming.epoch < stored.epoch then StaleEpoch
    else if incoming.time < stored.time then StaleTime
    else if incoming.time == stored.time && incoming.cursor == stored.cursor then StaleUnchanged
    else Accepted
  }

  /** Years 1 to 9999: the range both durable encodings read back. */
  predicate CheckEncodable<C>(w: Watermark<C>) {
    ZERO_TIME <= w.time < YEAR_10000
  }

  predicate Accepts<C(==)>(stored: Watermark<C>, incoming: Watermark<C>) {
    CheckMonotonic(stored, incoming) == Accepted
  }

  /** What a write has to bring: no older epoch, and a later time or, at the same time, another cursor. */
  predicate Advances<C(==)>(stored: Watermark<C>, incoming: Watermark<C>) {
    && stored.epoch <= incoming.epoch
    && (stored.time < incoming.time || (stored.time == incoming.time && stored.cursor != incoming.cursor))
  }

  /** The save is due: years 1 to 9999, and an advance over what is stored. */
  predicate Due<C(==)>(stored: Watermark<C>, w: Watermark<C>) {
    ZERO_TIME <= w.time < YEAR_10000 && Advances(stored, w)
  }

  /** The fence lets through every write that advances the stored watermark, and no other. */
  lemma AcceptsIff<C>(stored: Watermark<C>, incoming: Watermark<C>)
    ensures Accepts(stored, incoming) <==> Advances(stored, incoming)
  {
  }

  /** Neither the epoch nor the time of `a` is ahead of `b`. */
  predicate NotAhead<C>(a: Watermark<C>, b: Watermark<C>) {
    a.epoch <= b.epoch && a.time <= b.time
  }
}
