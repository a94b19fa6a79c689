/** The status column of a submission: two live states, the nine verdicts a judger may report, and
    any other text a request might carry. */
module Verdicts {

  datatype Status = Queued | Judging | AC | CE | WA | PE | TLE | MLE | OLE | RE | SE | Unknown(text: string)

  predicate Live(status: Status) { status.Queued? || status.Judging? }

  predicate ValidVerdict(status: Status) { !Live(status) && !status.Unknown? }

  /** Verdicts that cost 20 minutes on an ICPC board. */
  predicate Penalizable(status: Status) { !status.AC? && !status.CE? && !status.SE? }

  /** The label a problem carries for a user. */
  datatype Label = Untouched | Tried | Pending | Accepted
}
