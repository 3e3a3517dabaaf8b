/** Roles, their workflows and the exact artifacts each one must produce. */
module Roles {
  datatype Condition = A | B | C

  datatype Role = Solver | Verifier | Reviser | Draft | SelfReview

  datatype Name = Candidate | Evidence | Findings | FinalCandidate | DraftText | SelfReviewText | Other(text: string)

  function Workflow(condition: Condition): (r: seq<Role>)
    ensures 1 <= |r| && forall i, j :: 0 <= i < j < |r| ==> r[i] != r[j]
  {
    match condition
    case A => [Solver]
    case B => [Draft, SelfReview, Reviser]
    case C => [Solver, Verifier, Reviser]
  }

  function Primary(role: Role): Name {
    match role
    case Solver => Candidate
    case Verifier => Findings
    case Reviser => FinalCandidate
    case Draft => DraftText
    case SelfReview => SelfReviewText
  }

  /** The expected artifacts in the order their files sort. */
  function Order(role: Role): (r: seq<Name>)
    ensures 1 <= |r| <= 2 && Primary(role) in r && forall i, j :: 0 <= i < j < |r| ==> r[i] != r[j]
  {
    match role
    case Solver => [Candidate, Evidence]
    case _ => [Primary(role)]
  }

  function Expected(role: Role): set<Name> { set n | n in Order(role) }
}
