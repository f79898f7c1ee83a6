/** What an emit reports and what the scheduler makes of it (internal/emit/emit.go and the error
    switch of `ProcessBatch` in internal/schedule/runner.go). */
module Answers {

  datatype Reason = NoReason | DuplicateTimestamp | TooOld | PayloadTooLarge | BadEncoding | UnknownReason

  /** What one `Emit` call reports. */
  datatype Answer = Accepted | Rejected(reason: Reason) | Retryable

  datatype Verdict = Done | Gap | Halt | Retry

  predicate AdvancesPast(r: Reason) { r.DuplicateTimestamp? || r.TooOld? || r.PayloadTooLarge? }

  function Judge(a: Answer): Verdict {
    if a.Accepted? then Done
    else if a.Rejected? && AdvancesPast(a.reason) then Gap
    else if a.Rejected? && (a.reason.BadEncoding? || a.reason.UnknownReason?) then Halt
    else Retry
  }

  predicate Resolves(a: Answer) { Judge(a).Done? || Judge(a).Gap? }

  /** A rejected sample that cannot ever be stored, and a payload that is too large, are skipped with a gap;
      a malformed payload and an unknown rejection halt the loop; anything else is pulled again. */
  lemma JudgeIs(a: Answer)
    ensures Judge(a) == Done <==> a == Accepted
    ensures Judge(a) == Gap <==>
            a == Rejected(DuplicateTimestamp) || a == Rejected(TooOld) || a == Rejected(PayloadTooLarge)
    ensures Judge(a) == Halt <==> a == Rejected(BadEncoding) || a == Rejected(UnknownReason)
    ensures Judge(a) == Retry <==> a == Retryable || a == Rejected(NoReason)
    ensures Resolves(a) <==> Judge(a) == Done || Judge(a) == Gap
  {
  }
}
