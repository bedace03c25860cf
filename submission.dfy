/** What a submission builder decides: skip the submission (the handler then
    returns `Ok`), or hand an import payload to the sender. The send itself
    is not part of this model. */
module Submission {
  import Tachi

  datatype SkipReason =
    | GuestPlay                   // the score save has no card reference
    | NoCard                      // no card is currently inserted
    | NotWhitelisted(card: string)

  datatype Outcome = Skipped(reason: SkipReason) | Sent(payload: Tachi.Import)
}
