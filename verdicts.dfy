/**
 * What an evaluation produces: a status with its reason text, the full result
 * the orchestrator returns, and the outcome of running one indicator's evaluator
 * (a returned verdict, or an exception with its message).
 */
module Verdicts {

  datatype Status = Inclusion | Exclusion | Error | NotImplemented
  {
    /** The status text as the calculator reports it. */
    function Text(): string
    {
      match this
      case Inclusion => "Inclusion"
      case Exclusion => "Exclusion"
      case Error => "Error"
      case NotImplemented => "Not Implemented"
    }
  }

  /** The `(status, reason)` pair an evaluator returns. */
  datatype Verdict = Verdict(status: Status, reason: string)

  function Include(reason: string): Verdict
  {
    Verdict(Inclusion, reason)
  }

  function Exclude(reason: string): Verdict
  {
    Verdict(Exclusion, reason)
  }

  /** `(status, reason, psi_category, details)`; `details` is always empty. */
  datatype EvalResult = EvalResult(status: Status, reason: string, indicator: string, details: map<string, string>)

  /** Running an evaluator either returns a verdict or raises with a message. */
  datatype Outcome = Returned(verdict: Verdict) | Raised(message: string)
}
